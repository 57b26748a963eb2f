/** Turning framework modules on and off for many requesters, by counting them. */
module ActionRequests {
  import opened Wrappers

  type Item = nat

  /** Whether there is a framework to ask is part of the event. */
  datatype Event = TurnOn(item: Item, framework: bool) | TurnOff(item: Item, framework: bool)

  datatype Command = On(item: Item) | Off(item: Item)

  datatype Transition = Transition(next: map<Item, nat>, sent: Option<Command>)

  function Step(counts: map<Item, nat>, e: Event): Transition {
    var d := e.item;
    if !e.framework then Transition(counts, None)
    else
      match e
      case TurnOn(_, _) =>
        if d in counts then Transition(counts[d := counts[d] + 1], None)
        else Transition(counts[d := 1], Some(On(d)))
      case TurnOff(_, _) =>
        if d !in counts || counts[d] == 0 then Transition(counts, None)
        else if counts[d] == 1 then Transition(counts - {d}, Some(Off(d)))
        else Transition(counts[d := counts[d] - 1], None)
  }

  class SystemStatusOsObserver {
    var activeRequestCount: map<Item, nat>
    /** What the framework was asked, in order. */
    ghost var sent: seq<Command>

    ghost predicate Valid()
      reads this
    {
      Counted(activeRequestCount)
    }

    constructor ()
      ensures Valid() && activeRequestCount == map[] && sent == []
    {
      activeRequestCount, sent := map[], [];
    }

    method TurnOn(item: Item, framework: bool)
      requires Valid()
      modifies this
      ensures Valid() && activeRequestCount == Step(old(activeRequestCount), Event.TurnOn(item, framework)).next
      ensures sent == old(sent) + Sent(Step(old(activeRequestCount), Event.TurnOn(item, framework)).sent)
    {
      if framework {
        if item !in activeRequestCount {
          activeRequestCount := activeRequestCount[item := 1];
          sent := sent + [On(item)];
        } else {
          activeRequestCount := activeRequestCount[item := activeRequestCount[item] + 1];
        }
      }
    }

    method TurnOff(item: Item, framework: bool)
      requires Valid()
      modifies this
      ensures Valid() && activeRequestCount == Step(old(activeRequestCount), Event.TurnOff(item, framework)).next
      ensures sent == old(sent) + Sent(Step(old(activeRequestCount), Event.TurnOff(item, framework)).sent)
    {
      if framework && item in activeRequestCount {
        var left := activeRequestCount[item] - 1;
        if left == 0 {
          activeRequestCount := activeRequestCount - {item};
          sent := sent + [Off(item)];
        } else {
          activeRequestCount := activeRequestCount[item := left];
        }
      }
    }
  }

  function Sent(c: Option<Command>): seq<Command> {
    match c
    case None => []
    case Some(c) => [c]
  }

  /** No item is kept with a count of nothing. */
  ghost predicate Counted(counts: map<Item, nat>) {
    forall d :: d in counts ==> counts[d] > 0
  }

  // ------------------------------------------------------------------ runs

  function At(run: seq<Event>, n: nat): map<Item, nat>
    requires n <= |run|
  {
    if n == 0 then map[] else Step(At(run, n - 1), run[n - 1]).next
  }

  function Commands(run: seq<Event>, n: nat, c: Command): nat
    requires n <= |run|
  {
    if n == 0 then 0
    else Commands(run, n - 1, c) + if Step(At(run, n - 1), run[n - 1]).sent == Some(c) then 1 else 0
  }

  /** How many requests for the item have not been taken back; what is not there cannot
      be. */
  function Outstanding(run: seq<Event>, n: nat, d: Item): nat
    requires n <= |run|
  {
    if n == 0 then 0
    else
      var before, e := Outstanding(run, n - 1, d), run[n - 1];
      if e.item != d || !e.framework then before
      else if e.TurnOn? then before + 1
      else if before == 0 then 0
      else before - 1
  }

  /** On every run, for every item: the count is that of the outstanding requests, and the
      framework has been asked to turn the item on once more than off exactly while there
      are any. */
  lemma {:induction false} EveryRunBalances(run: seq<Event>, n: nat, d: Item)
    requires n <= |run|
    ensures Counted(At(run, n))
    ensures (if d in At(run, n) then At(run, n)[d] else 0) == Outstanding(run, n, d)
    ensures Commands(run, n, On(d)) == Commands(run, n, Off(d)) + if Outstanding(run, n, d) > 0 then 1 else 0
  {
    if n > 0 {
      EveryRunBalances(run, n - 1, d);
    }
  }
}
