/** Which invitations ring, and which offers carry live video. */
module Ringing {
  type Sender = nat
  type CallId = nat

  const INTERVAL := 10000

  datatype Ring = Ring(at: nat, call: CallId)

  /** An invitation, with the brake as it is set when it comes, or a sign-out. */
  datatype Event = Invite(sender: Sender, call: CallId, at: nat, brake: bool) | Forgotten

  type Log = map<Sender, Ring>

  /** Not the call this sender rang with last, and under the brake not within ten seconds. */
  predicate Due(seen: Log, i: Event) {
    && i.Invite?
    && (i.sender in seen ==>
          seen[i.sender].call != i.call && (i.brake ==> i.at - seen[i.sender].at >= INTERVAL))
  }

  function Noted(seen: Log, i: Event): Log {
    if i.Forgotten? then map[] else if Due(seen, i) then seen[i.sender := Ring(i.at, i.call)] else seen
  }

  function Seen(events: seq<Event>): Log
    decreases |events|
  {
    if events == [] then map[] else Noted(Seen(events[..|events| - 1]), events[|events| - 1])
  }

  /** Whether the event at `k` rings. */
  predicate Rings(events: seq<Event>, k: nat)
    requires k < |events|
  {
    Due(Seen(events[..k]), events[k])
  }

  /** `j` is the sender's latest ring before `k`, and not forgotten since. */
  ghost predicate LastRing(events: seq<Event>, s: Sender, j: nat, k: nat)
    requires j < k <= |events|
  {
    && events[j].Invite? && events[j].sender == s && Rings(events, j)
    && forall m :: j < m < k ==> !events[m].Forgotten? && (events[m].sender == s ==> !Rings(events, m))
  }

  /** Nothing of the sender rang before `k` since the last sign-out. */
  ghost predicate NoRing(events: seq<Event>, s: Sender, k: nat)
    requires k <= |events|
  {
    forall m :: 0 <= m < k && events[m].Invite? && events[m].sender == s && Rings(events, m) ==>
      exists f :: m < f < k && events[f].Forgotten?
  }

  /** What is remembered of a sender is the latest ring since the last sign-out, and nothing
      only where none was. */
  lemma {:induction false} SeenIsLast(events: seq<Event>, s: Sender, k: nat)
    requires k <= |events|
    ensures var seen := Seen(events[..k]);
      if s in seen
      then exists j: nat :: j < k && LastRing(events, s, j, k) && seen[s] == Ring(events[j].at, events[j].call)
      else NoRing(events, s, k)
    decreases k
  {
    if k > 0 {
      SeenIsLast(events, s, k - 1);
      assert events[..k][..k - 1] == events[..k - 1];
      var before, i := Seen(events[..k - 1]), events[k - 1];
      assert Seen(events[..k]) == Noted(before, i);
      assert Rings(events, k - 1) == Due(before, i);
      hide Seen, Rings;
      if i.Forgotten? {
        ForgottenAll(events, s, k);
      } else if i.sender == s && Due(before, i) {
        assert LastRing(events, s, k - 1, k);
      } else if s in before {
        var j: nat :| j < k - 1 && LastRing(events, s, j, k - 1) && before[s] == Ring(events[j].at, events[j].call);
        assert LastRing(events, s, j, k);
      } else {
        StillNoRing(events, s, k);
      }
    }
  }

  lemma ForgottenAll(events: seq<Event>, s: Sender, k: nat)
    requires 0 < k <= |events| && events[k - 1].Forgotten?
    ensures NoRing(events, s, k)
  {
    hide Rings;
    forall m | 0 <= m < k && events[m].Invite? && events[m].sender == s && Rings(events, m)
      ensures exists f :: m < f < k && events[f].Forgotten?
    {
      assert m < k - 1 && events[k - 1].Forgotten?;
    }
  }

  lemma StillNoRing(events: seq<Event>, s: Sender, k: nat)
    requires 0 < k <= |events| && NoRing(events, s, k - 1)
    requires events[k - 1].Invite? && (events[k - 1].sender == s ==> !Rings(events, k - 1))
    ensures NoRing(events, s, k)
  {
    hide Rings;
    forall m | 0 <= m < k && events[m].Invite? && events[m].sender == s && Rings(events, m)
      ensures exists f :: m < f < k && events[f].Forgotten?
    {
      var f :| m < f < k - 1 && events[f].Forgotten?;
    }
  }

  /** An invitation after the sender's ring at `j` rings exactly if it names another call
      and, under the brake, comes ten seconds later. */
  lemma NextRing(events: seq<Event>, j: nat, k: nat)
    requires j < k < |events| && events[k].Invite? && LastRing(events, events[k].sender, j, k)
    ensures Rings(events, k) <==>
      events[k].call != events[j].call && (events[k].brake ==> events[k].at - events[j].at >= INTERVAL)
  {
    var s := events[k].sender;
    SeenIsLast(events, s, k);
    hide Seen;
    var seen := Seen(events[..k]);
    assert s in seen by { assert Rings(events, j); }
    var m: nat :| m < k && LastRing(events, s, m, k) && seen[s] == Ring(events[m].at, events[m].call);
    assert Rings(events, j) && Rings(events, m);
  }

  /** An invitation rings without more ado if its sender did not ring since the last sign-out. */
  lemma FirstRing(events: seq<Event>, k: nat)
    requires k < |events| && events[k].Invite? && NoRing(events, events[k].sender, k)
    ensures Rings(events, k)
  {
    var s := events[k].sender;
    SeenIsLast(events, s, k);
    assert Rings(events, k) == Due(Seen(events[..k]), events[k]);
    hide Seen, Rings;
  }

  /** A repeat of the latest call is silent; but a call can ring twice once another one of
      the same sender rang in between, or after a sign-out. */
  lemma RingsAgain(s: Sender, a: CallId, b: CallId, at: nat, brake: bool)
    requires a != b
    ensures var again := Invite(s, a, at + 2 * INTERVAL, brake);
      var events := [Invite(s, a, at, brake), Invite(s, b, at + INTERVAL, brake), again];
      Rings(events, 0) && Rings(events, 1) && Rings(events, 2)
    ensures var events := [Invite(s, a, at, brake), Forgotten, Invite(s, a, at, brake)];
      Rings(events, 0) && Rings(events, 2)
  {
    var x, y, z := Invite(s, a, at, brake), Invite(s, b, at + INTERVAL, brake), Invite(s, a, at + 2 * INTERVAL, brake);
    assert Seen([]) == map[];
    assert [x][..0] == [] && Seen([x]) == map[s := Ring(at, a)];
    assert [x, y][..1] == [x] && Seen([x, y])[s] == Ring(at + INTERVAL, b);
    assert [x, Forgotten][..1] == [x] && Seen([x, Forgotten]) == map[];
    var events, other := [x, y, z], [x, Forgotten, x];
    assert events[..0] == [] && events[..1] == [x] && events[..2] == [x, y];
    assert other[..0] == [] && other[..2] == [x, Forgotten];
  }

  class RingLog {
    var seen: Log

    constructor ()
      ensures seen == map[]
    {
      seen := map[];
    }

    method RingIsDue(sender: Sender, call: CallId, at: nat, brake: bool) returns (due: bool)
      modifies this
      ensures due == Due(old(seen), Invite(sender, call, at, brake))
      ensures seen == Noted(old(seen), Invite(sender, call, at, brake))
    {
      if sender in seen {
        var last := seen[sender];
        if last.call == call {
          return false;
        }
        if brake && at - last.at < INTERVAL {
          return false;
        }
      }
      seen := seen[sender := Ring(at, call)];
      due := true;
    }

    method ForgetState()
      modifies this
      ensures seen == Noted(old(seen), Forgotten)
    {
      seen := map[];
    }
  }

  // ------------------------------------------------ live video in an offer

  /** A line of a session description: a media line, `a=bundle-only`, or anything else. */
  datatype Line = Media(video: bool, portZero: bool) | BundleOnly | Plain

  /** The section of the media line at `i` reaches `j`. */
  ghost predicate InSection(lines: seq<Line>, i: nat, j: nat) {
    i <= j < |lines| && lines[i].Media? && forall k :: i < k <= j ==> !lines[k].Media?
  }

  /** A video line whose port is not zero, or that leaves its transport to the bundle
      (RFC 9143, section 6). */
  ghost predicate Live(lines: seq<Line>, i: nat) {
    && i < |lines| && lines[i].Media? && lines[i].video
    && (lines[i].portZero ==> exists j: nat :: InSection(lines, i, j) && lines[j].BundleOnly?)
  }

  /** The walk says yes exactly if some video section is live. */
  method OffersActiveVideo(lines: seq<Line>) returns (live: bool)
    ensures live <==> exists i: nat :: Live(lines, i)
  {
    var inVideo, portZero := false, false;
    ghost var section: nat := 0;
    for n := 0 to |lines|
      invariant inVideo ==> section < n && lines[section].Media? && lines[section].video
      invariant inVideo ==> lines[section].portZero == portZero
      invariant inVideo ==> forall k :: section < k < n ==> !lines[k].Media?
      invariant inVideo && portZero ==> forall k :: section < k < n ==> !lines[k].BundleOnly?
      invariant forall i: nat ::
        i < n && lines[i].Media? && lines[i].video && !(inVideo && i == section) ==> !Live(lines, i)
    {
      if lines[n].Media? {
        if inVideo && !portZero {
          assert Live(lines, section);
          return true;
        }
        assert inVideo ==> !Live(lines, section);
        inVideo := lines[n].video;
        portZero := inVideo && lines[n].portZero;
        section := n;
        continue;
      }
      if inVideo && portZero && lines[n] == BundleOnly {
        assert InSection(lines, section, n);
        assert Live(lines, section);
        return true;
      }
    }
    live := inVideo && !portZero;
    if live {
      assert Live(lines, section);
    }
  }
}
