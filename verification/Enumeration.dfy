/** Enumerating enrolled fingers: the devices count down, and the session collects. */
module Enumeration {
  /** One template, and how many are to follow. */
  datatype Message = Message(fid: nat, remaining: nat)

  const MAX_FINGERS: nat := 5

  // ------------------------------------------------------------------ the devices

  /** What a device says about its fingers: one message each, or one for none at all. */
  function Replay(fids: seq<nat>): seq<Message> {
    if fids == [] then [Message(0, 0)] else CountDown(fids, |fids|)
  }

  function CountDown(fids: seq<nat>, n: nat): seq<Message>
    requires n <= |fids|
  {
    seq(n, i requires 0 <= i < n => Message(fids[i], |fids| - i - 1))
  }

  class OppoDevice {
    var knownFingers: seq<nat>
    var receivedEnumerate: bool

    constructor ()
      ensures knownFingers == [] && !receivedEnumerate
    {
      knownFingers, receivedEnumerate := [], false;
    }

    method OnSyncTemplates(fids: seq<nat>)
      modifies `knownFingers
      ensures knownFingers == fids
    {
      knownFingers := fids;
    }

    /** spoken are the messages of the service itself during the call, and status what it
        returns. */
    method Enumerate(status: int, spoken: seq<Message>) returns (ret: int, messages: seq<Message>)
      modifies `receivedEnumerate
      ensures ret == status
      ensures messages == if status == 0 && spoken == [] then Replay(knownFingers) else spoken
    {
      receivedEnumerate := spoken != [];
      ret, messages := status, spoken;
      if ret != 0 || receivedEnumerate {
        return;
      }
      var remaining := |knownFingers|;
      if remaining == 0 {
        messages := [Message(0, 0)];
      } else {
        for i := 0 to |knownFingers|
          invariant remaining == |knownFingers| - i
          invariant messages == CountDown(knownFingers, i)
        {
          remaining := remaining - 1;
          messages := messages + [Message(knownFingers[i], remaining)];
        }
      }
    }
  }

  datatype RbsAnswer = RbsAnswer(rc: int, fids: seq<nat>)

  /** The group is None before one is set. */
  method RbsEnumerate(hasGroup: bool, answer: RbsAnswer) returns (ret: int, messages: seq<Message>)
    requires |answer.fids| <= MAX_FINGERS
    ensures ret == 0 <==> hasGroup && answer.rc == 0
    ensures messages == if ret == 0 then Replay(answer.fids) else []
  {
    messages := [];
    if !hasGroup {
      return -22, [];
    }
    if answer.rc != 0 {
      return answer.rc, [];
    }
    if |answer.fids| == 0 {
      messages := [Message(0, 0)];
    } else {
      for i := 0 to |answer.fids|
        invariant messages == CountDown(answer.fids, i)
      {
        messages := messages + [Message(answer.fids[i], |answer.fids| - i - 1)];
      }
    }
    ret := 0;
  }

  // ------------------------------------------------------------------ the session

  /** The ids collected so far, and the lists that were handed on. */
  datatype Collector = Collector(enrollments: seq<nat>, reports: seq<seq<nat>>)

  function Notified(c: Collector, m: Message): Collector {
    var ids := if m.fid != 0 then c.enrollments + [m.fid] else c.enrollments;
    if m.remaining == 0 then Collector([], c.reports + [ids]) else c.(enrollments := ids)
  }

  function NotifiedAll(c: Collector, messages: seq<Message>, n: nat): Collector
    requires n <= |messages|
  {
    if n == 0 then c else Notified(NotifiedAll(c, messages, n - 1), messages[n - 1])
  }

  /** The part of Session.notify that collects, the vector being one for all sessions. */
  class EnumerationSession {
    var enrollments: seq<nat>
    ghost var reports: seq<seq<nat>>

    ghost function Abs(): Collector
      reads this
    {
      Collector(enrollments, reports)
    }

    constructor ()
      ensures Abs() == Collector([], [])
    {
      enrollments, reports := [], [];
    }

    method Notify(m: Message) returns (report: seq<seq<nat>>)
      modifies this
      ensures Abs() == Notified(old(Abs()), m)
      ensures reports == old(reports) + report
    {
      report := [];
      if m.fid != 0 {
        enrollments := enrollments + [m.fid];
      }
      if m.remaining == 0 {
        report := [enrollments];
        reports := reports + report;
        enrollments := [];
      }
    }
  }

  // ------------------------------------------------------------------ the protocol

  function NonZero(ids: seq<nat>, n: nat): seq<nat>
    requires n <= |ids|
  {
    if n == 0 then [] else NonZero(ids, n - 1) + if ids[n - 1] != 0 then [ids[n - 1]] else []
  }

  function Fids(messages: seq<Message>): seq<nat> {
    seq(|messages|, i requires 0 <= i < |messages| => messages[i].fid)
  }

  function Flatten(lists: seq<seq<nat>>): seq<nat> {
    if lists == [] then [] else Flatten(lists[..|lists| - 1]) + lists[|lists| - 1]
  }

  /** How many messages say that none is to follow. */
  function Ends(messages: seq<Message>, n: nat): nat
    requires n <= |messages|
  {
    if n == 0 then 0 else Ends(messages, n - 1) + if messages[n - 1].remaining == 0 then 1 else 0
  }

  /** All ids that were handed on or are waiting to be. */
  function Collected(c: Collector): seq<nat> {
    Flatten(c.reports) + c.enrollments
  }

  lemma NotifiedCollects(c: Collector, m: Message)
    ensures Collected(Notified(c, m)) == Collected(c) + (if m.fid != 0 then [m.fid] else [])
    ensures |Notified(c, m).reports| == |c.reports| + if m.remaining == 0 then 1 else 0
  {
    var d := Notified(c, m);
    var id := if m.fid != 0 then [m.fid] else [];
    assert c.enrollments + id == if m.fid != 0 then c.enrollments + [m.fid] else c.enrollments;
    assert Flatten(c.reports) + (c.enrollments + id) == Collected(c) + id;
    if m.remaining == 0 {
      assert d.reports[..|d.reports| - 1] == c.reports;
      assert Collected(d) == Flatten(d.reports);
    }
  }

  /** Whatever messages come, from wherever: no id is lost, doubled or reordered, and there
      is a report for each message that says it is the last. */
  lemma {:induction false} NothingIsLost(c: Collector, messages: seq<Message>, n: nat)
    requires n <= |messages|
    ensures var d := NotifiedAll(c, messages, n);
      && Collected(d) == Collected(c) + NonZero(Fids(messages), n)
      && |d.reports| == |c.reports| + Ends(messages, n)
  {
    hide Collected, Notified;
    if n > 0 {
      NothingIsLost(c, messages, n - 1);
      NotifiedCollects(NotifiedAll(c, messages, n - 1), messages[n - 1]);
    }
  }

  /** With nothing collected before, a replay makes exactly one report, of the fingers with
      an id, in order, and leaves nothing behind. */
  lemma ReplayMakesOneReport(reports: seq<seq<nat>>, fids: seq<nat>)
    ensures var m := Replay(fids);
      NotifiedAll(Collector([], reports), m, |m|) == Collector([], reports + [NonZero(fids, |fids|)])
  {
    if fids == [] {
      assert NotifiedAll(Collector([], reports), [Message(0, 0)], 0) == Collector([], reports);
    } else {
      CountingDown(reports, fids, |fids| - 1);
      var m, last := Replay(fids), fids[|fids| - 1];
      assert m[|fids| - 1] == Message(last, 0);
      var before := NonZero(fids, |fids| - 1);
      assert (if last != 0 then before + [last] else before) == NonZero(fids, |fids|);
    }
  }

  lemma {:induction false} CountingDown(reports: seq<seq<nat>>, fids: seq<nat>, n: nat)
    requires n < |fids|
    ensures NotifiedAll(Collector([], reports), Replay(fids), n) == Collector(NonZero(fids, n), reports)
  {
    if n > 0 {
      CountingDown(reports, fids, n - 1);
    }
  }

  /** The messages of several enumerations, one after the other. */
  function AllReplays(lists: seq<seq<nat>>, n: nat): seq<Message>
    requires n <= |lists|
  {
    if n == 0 then [] else AllReplays(lists, n - 1) + Replay(lists[n - 1])
  }

  /** One list of fingers each. */
  function Reports(lists: seq<seq<nat>>, n: nat): seq<seq<nat>>
    requires n <= |lists|
  {
    if n == 0 then [] else Reports(lists, n - 1) + [NonZero(lists[n - 1], |lists[n - 1]|)]
  }

  /** However often the fingers are enumerated, each gives its own report. */
  lemma {:induction false} EnumerationsNeverMix(lists: seq<seq<nat>>, n: nat)
    requires n <= |lists|
    ensures var m := AllReplays(lists, n);
      NotifiedAll(Collector([], []), m, |m|) == Collector([], Reports(lists, n))
  {
    hide Replay, Notified, NonZero;
    if n > 0 {
      EnumerationsNeverMix(lists, n - 1);
      var m, more := AllReplays(lists, n - 1), Replay(lists[n - 1]);
      NotifiedAppend(Collector([], []), m, more, |more|);
      ReplayMakesOneReport(Reports(lists, n - 1), lists[n - 1]);
    }
  }

  lemma {:induction false} NotifiedAppend(c: Collector, m: seq<Message>, more: seq<Message>, n: nat)
    requires n <= |more|
    ensures NotifiedAll(c, m + more, |m| + n) == NotifiedAll(NotifiedAll(c, m, |m|), more, n)
  {
    if n > 0 {
      NotifiedAppend(c, m, more, n - 1);
      assert (m + more)[|m| + n - 1] == more[n - 1];
    } else {
      NotifiedPrefix(c, m, more, |m|);
    }
  }

  lemma {:induction false} NotifiedPrefix(c: Collector, m: seq<Message>, more: seq<Message>, n: nat)
    requires n <= |m|
    ensures NotifiedAll(c, m + more, n) == NotifiedAll(c, m, n)
  {
    if n > 0 {
      NotifiedPrefix(c, m, more, n - 1);
    }
  }
}
