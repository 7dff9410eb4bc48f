/** The room list: rows from the diff stream, local patches on top, and unread totals
    that no caller has to remember to recompute. */
module RoomList {
  import opened DiffModel

  function ToBool(row: Row, key: string): bool { key in row && row[key].Bool? && row[key].b }

  function ToInt(row: Row, key: string): int { if key in row && row[key].Int? then row[key].i else 0 }

  function ToStr(row: Row, key: string): string { if key in row && row[key].Str? then row[key].s else "" }

  datatype Totals = Totals(rooms: nat, messages: nat, capped: bool)

  /** A joined room that is neither a space nor muted and has unread messages. */
  predicate Counts(row: Row) {
    !ToBool(row, "space") && !ToBool(row, "muted") && ToStr(row, "membership") == "joined" && ToInt(row, "unread") > 0
  }

  /** The totals of a list, read off its rows and nothing else. */
  function Fold(rows: seq<Row>): (t: Totals)
    decreases |rows|
  {
    if rows == [] then Totals(0, 0, false)
    else
      var t, last := Fold(rows[..|rows| - 1]), rows[|rows| - 1];
      if Counts(last)
      then Totals(t.rooms + 1, t.messages + ToInt(last, "unread"), t.capped || ToBool(last, "unreadCapped"))
      else t
  }

  /** A row whose count the totals can only give a lower bound for. */
  predicate Caps(row: Row) { Counts(row) && ToBool(row, "unreadCapped") }

  /** The totals are capped exactly if some row that counts is. */
  lemma {:induction false} CappedIs(rows: seq<Row>)
    ensures Fold(rows).capped <==> exists i :: 0 <= i < |rows| && Caps(rows[i])
    decreases |rows|
  {
    if rows != [] {
      var n := |rows| - 1;
      CappedIs(rows[..n]);
      assert Fold(rows).capped <==> Fold(rows[..n]).capped || Caps(rows[n]);
      hide Counts, Caps, Fold;
      assert forall i :: 0 <= i < n ==> rows[..n][i] == rows[i];
      if i :| 0 <= i < |rows| && Caps(rows[i]) {
        assert i < n ==> Caps(rows[..n][i]);
      }
    }
  }

  /** Replacing one row moves the totals by that row alone. */
  lemma {:induction false} FoldSet(rows: seq<Row>, i: nat, row: Row)
    requires i < |rows|
    ensures Fold(rows[i := row]).rooms
         == Fold(rows).rooms - (if Counts(rows[i]) then 1 else 0) + (if Counts(row) then 1 else 0)
    ensures Fold(rows[i := row]).messages
         == Fold(rows).messages - (if Counts(rows[i]) then ToInt(rows[i], "unread") else 0)
            + (if Counts(row) then ToInt(row, "unread") else 0)
    ensures Fold(rows[i := row]).capped <==> Caps(row) || exists j :: 0 <= j < |rows| && j != i && Caps(rows[j])
    decreases |rows|
  {
    CappedIs(rows[i := row]);
    assert forall j :: 0 <= j < |rows| ==> rows[i := row][j] == if j == i then row else rows[j];
    hide Counts, ToInt, ToBool;
    var n := |rows| - 1;
    if i < n {
      FoldSet(rows[..n], i, row);
      assert rows[i := row][..n] == rows[..n][i := row];
    } else {
      assert rows[i := row][..n] == rows[..n];
    }
  }

  /** The first row of a room, or the number of rows. */
  function IndexOf(rows: seq<Row>, id: string): (i: nat)
    ensures i <= |rows|
    ensures i < |rows| ==> ToStr(rows[i], "id") == id
    ensures forall h :: 0 <= h < i ==> ToStr(rows[h], "id") != id
  {
    if rows == [] || ToStr(rows[0], "id") == id then 0 else 1 + IndexOf(rows[1..], id)
  }

  function WithMode(row: Row, mode: string): Row {
    if ToStr(row, "notifyMode") == mode then row
    else row["notifyMode" := Str(mode)]["muted" := Bool(mode == "mute")]
  }

  function Read(row: Row): Row {
    if ToInt(row, "unread") == 0 && ToInt(row, "notifications") == 0 && ToInt(row, "mentions") == 0
       && !ToBool(row, "markedUnread")
    then row
    else row["unread" := Int(0)]["notifications" := Int(0)]["mentions" := Int(0)]["markedUnread" := Bool(false)]
  }

  /** One room's row replaced, all others kept. */
  function Local(rows: seq<Row>, id: string, change: Row -> Row): seq<Row> {
    var i := IndexOf(rows, id);
    if i == |rows| then rows else rows[i := change(rows[i])]
  }

  /** Field by field, in any order, noting whether anything differed. */
  method Merge(row: Row, fields: Row) returns (merged: Row, changed: bool)
    ensures merged == row + fields && (changed <==> merged != row)
  {
    merged, changed := row, false;
    var todo := fields.Keys;
    while todo != {}
      invariant todo <= fields.Keys
      invariant merged == row + map k | k in fields && k !in todo :: fields[k]
      invariant changed <==> merged != row
      decreases |todo|
    {
      var k :| k in todo;
      if k !in merged || merged[k] != fields[k] {
        merged := merged[k := fields[k]];
        changed := true;
      }
      todo := todo - {k};
    }
    assert merged == row + fields;
  }

  class RoomListModel {
    const list: DiffListModel
    var totals: Totals

    /** The totals are those of the rows. */
    ghost predicate Valid()
      reads this, list
    {
      totals == Fold(list.rows)
    }

    constructor ()
      ensures Valid() && fresh(list) && list.State() == Model([], false)
    {
      list := new DiffListModel();
      totals := Totals(0, 0, false);
    }

    method RecountUnread()
      modifies this
      ensures Valid()
    {
      var roomsWithNews, messages, capped := 0, 0, false;
      for i := 0 to |list.rows|
        invariant Totals(roomsWithNews, messages, capped) == Fold(list.rows[..i])
      {
        var row := list.rows[i];
        assert list.rows[..i + 1][..i] == list.rows[..i];
        if ToBool(row, "space") || ToBool(row, "muted") || ToStr(row, "membership") != "joined" {
          continue;
        }
        var unread := ToInt(row, "unread");
        if unread <= 0 {
          continue;
        }
        roomsWithNews := roomsWithNews + 1;
        messages := messages + unread;
        capped := capped || ToBool(row, "unreadCapped");
      }
      assert list.rows[..|list.rows|] == list.rows;
      totals := Totals(roomsWithNews, messages, capped);
    }

    /** Diffs from the core: every emission that is not a drift report reaches the recount. */
    method ApplyOperations(ops: seq<Op>)
      requires Valid()
      modifies this, list
      ensures Valid()
      ensures list.State() == AppliedAll(old(list.State()), ops)
    {
      hide Applied, Emitted, Fold;
      for i := 0 to |ops|
        invariant Valid()
        invariant list.State() == AppliedAll(old(list.State()), ops[..i])
      {
        assert ops[..i + 1][..i] == ops[..i];
        ghost var before := list.State();
        var said := |list.log|;
        list.ApplyOperation(ops[i]);
        ChangeIsSaid(before, ops[i]);
        if |list.log| > said && !list.log[said].signal.OutOfStep? {
          RecountUnread();
        }
      }
      assert ops[..|ops|] == ops;
    }

    /** One row replaced, along the path a diff takes. */
    method Replace(i: nat, row: Row)
      requires Valid() && i < |list.rows|
      modifies this, list
      ensures Valid() && list.State() == Model(old(list.rows)[i := row], old(list.outOfStep))
    {
      ghost var m := list.State();
      ApplyOperations([Set(i, row)]);
      assert [Set(i, row)][..0] == [];
      assert AppliedAll(m, [Set(i, row)]) == Applied(AppliedAll(m, []), Set(i, row));
    }

    method SetNotifyMode(roomId: string, mode: string)
      requires Valid()
      modifies this, list
      ensures Valid()
      ensures list.State() == Model(Local(old(list.rows), roomId, r => WithMode(r, mode)), old(list.outOfStep))
    {
      for i := 0 to |list.rows|
        invariant list.State() == old(list.State()) && Valid()
        invariant i <= IndexOf(list.rows, roomId)
      {
        var row := list.rows[i];
        if ToStr(row, "id") != roomId {
          continue;
        }
        if ToStr(row, "notifyMode") == mode {
          return;
        }
        row := row["notifyMode" := Str(mode)];
        row := row["muted" := Bool(mode == "mute")];
        Replace(i, row);
        return;
      }
    }

    method SetFields(roomId: string, fields: Row)
      requires Valid()
      modifies this, list
      ensures Valid()
      ensures list.State() == Model(Local(old(list.rows), roomId, r => r + fields), old(list.outOfStep))
    {
      for i := 0 to |list.rows|
        invariant list.State() == old(list.State()) && Valid()
        invariant i <= IndexOf(list.rows, roomId)
      {
        var row := list.rows[i];
        if ToStr(row, "id") != roomId {
          continue;
        }
        var changed;
        row, changed := Merge(row, fields);
        if changed {
          Replace(i, row);
        }
        return;
      }
    }

    method ClearUnread(roomId: string)
      requires Valid()
      modifies this, list
      ensures Valid()
      ensures list.State() == Model(Local(old(list.rows), roomId, Read), old(list.outOfStep))
    {
      for i := 0 to |list.rows|
        invariant list.State() == old(list.State()) && Valid()
        invariant i <= IndexOf(list.rows, roomId)
      {
        var row := list.rows[i];
        if ToStr(row, "id") != roomId {
          continue;
        }
        if ToInt(row, "unread") == 0 && ToInt(row, "notifications") == 0 && ToInt(row, "mentions") == 0
           && !ToBool(row, "markedUnread") {
          return;
        }
        row := row["unread" := Int(0)];
        row := row["notifications" := Int(0)];
        row := row["mentions" := Int(0)];
        row := row["markedUnread" := Bool(false)];
        Replace(i, row);
        return;
      }
    }
  }

  /** A room read here no longer counts, and only that room's share leaves the totals: they
      are capped still exactly if another room is. */
  lemma ReadingARoom(rows: seq<Row>, id: string)
    ensures var i, after := IndexOf(rows, id), Local(rows, id, Read);
      if i < |rows| && Counts(rows[i])
      then Fold(after).rooms == Fold(rows).rooms - 1
           && Fold(after).messages == Fold(rows).messages - ToInt(rows[i], "unread")
      else Fold(after).rooms == Fold(rows).rooms && Fold(after).messages == Fold(rows).messages
    ensures var i := IndexOf(rows, id);
      Fold(Local(rows, id, Read)).capped <==> exists j :: 0 <= j < |rows| && j != i && Caps(rows[j])
  {
    CappedIs(rows);
    var i := IndexOf(rows, id);
    if i < |rows| {
      FoldSet(rows, i, Read(rows[i]));
      ReadCountsNot(rows[i]);
    }
  }

  lemma ReadCountsNot(row: Row)
    ensures !Counts(Read(row))
  {
  }

  /** Reading sets the three counts and the mark to nothing and leaves every other field. */
  lemma ReadIs(row: Row)
    ensures var r := Read(row);
      && ToInt(r, "unread") == 0 && ToInt(r, "notifications") == 0 && ToInt(r, "mentions") == 0
      && !ToBool(r, "markedUnread")
      && forall k :: k !in {"unread", "notifications", "mentions", "markedUnread"} ==>
           (k in r <==> k in row) && (k in row ==> r[k] == row[k])
  {
  }

  /** What counts, field by field: a joined room with unread messages, no space and not muted. */
  lemma CountsExactly(row: Row)
    ensures Counts(row) <==>
      && "membership" in row && row["membership"] == Str("joined")
      && "unread" in row && row["unread"].Int? && row["unread"].i > 0
      && !("space" in row && row["space"] == Bool(true)) && !("muted" in row && row["muted"] == Bool(true))
  {
  }

  /** A new mode mutes the room exactly if it is "mute", and changes no other field; the mode
      it has already changes nothing. */
  lemma ModeIs(row: Row, mode: string)
    ensures var r := WithMode(row, mode);
      && ToStr(r, "notifyMode") == mode
      && (ToStr(row, "notifyMode") == mode ==> r == row)
      && (ToStr(row, "notifyMode") != mode ==> (ToBool(r, "muted") <==> mode == "mute"))
      && forall k :: k != "notifyMode" && k != "muted" ==> (k in r <==> k in row) && (k in row ==> r[k] == row[k])
  {
  }

  /** So muting a room takes exactly its share out of the totals, and unmuting it puts in what
      it has unread. */
  lemma MutingARoom(rows: seq<Row>, id: string, mode: string)
    requires var i := IndexOf(rows, id); i < |rows| && ToStr(rows[i], "notifyMode") != mode
    ensures var i, after := IndexOf(rows, id), Local(rows, id, r => WithMode(r, mode));
      var counts := mode != "mute" && Counts(rows[i]["muted" := Bool(false)]);
      && Fold(after).rooms == Fold(rows).rooms - (if Counts(rows[i]) then 1 else 0) + (if counts then 1 else 0)
      && Fold(after).messages == Fold(rows).messages
           - (if Counts(rows[i]) then ToInt(rows[i], "unread") else 0)
           + (if counts then ToInt(rows[i], "unread") else 0)
  {
    var i := IndexOf(rows, id);
    FoldSet(rows, i, WithMode(rows[i], mode));
    CountsExactly(WithMode(rows[i], mode));
    CountsExactly(rows[i]["muted" := Bool(false)]);
    hide Fold, Counts;
  }
}
