/** One AGPS connection state machine as a transition function on values.

    A machine owns one framework data connection and a list of subscribers (ATL
    handles). An inactive subscriber has unsubscribed but waits for the connection
    to close before it is told. Callback payload (APN, bearer, type mask) is not
    carried: no decision depends on it. */
module AgpsModel {
  import opened Wrappers

  datatype State = Released | Pending | Acquired | Releasing

  datatype Subscriber = Subscriber(handle: int, waitForClose: bool, inactive: bool)

  datatype Machine = Machine(state: State, subs: seq<Subscriber>)

  /** An ATL callback to one handle. */
  datatype Notice = OpenOk(handle: int) | OpenFailed(handle: int) | Closed(handle: int)

  /** An order to the framework about the data connection. */
  datatype Command = Request | Release

  datatype Output = Tell(notice: Notice) | Order(command: Command)

  datatype Event =
    | Subscribe(handle: int, waitForClose: bool)
    | Unsubscribe(handle: int, waitForClose: bool)
    | ConnectionGranted
    | ConnectionReleased
    | ConnectionDenied
    | ModemRestart

  datatype Audience = Everyone | InactiveOnes | ActiveOnes

  /** The next machine, the notices sent in order, and the command sent after them. */
  datatype Transition = Transition(next: Machine, told: seq<Notice>, order: Option<Command>)

  function Tells(told: seq<Notice>): seq<Output> {
    seq(|told|, i requires 0 <= i < |told| => Tell(told[i]))
  }

  /** Everything a transition sends, in order. */
  function Out(t: Transition): seq<Output> {
    Tells(t.told) + (if t.order.Some? then [Order(t.order.value)] else [])
  }

  const FRESH := Machine(Released, [])

  predicate Listed(subs: seq<Subscriber>, h: int) {
    exists i :: 0 <= i < |subs| && subs[i].handle == h
  }

  predicate AnyActive(subs: seq<Subscriber>) {
    exists i :: 0 <= i < |subs| && !subs[i].inactive
  }

  predicate Hears(a: Audience, s: Subscriber) {
    match a
    case Everyone => true
    case InactiveOnes => s.inactive
    case ActiveOnes => !s.inactive
  }

  /** The notice a subscriber gets for an event: denied and granted are answers to an
      open request, everything else is reported as a close. */
  function NoticeFor(e: Event, h: int): Notice {
    match e
    case ConnectionGranted => OpenOk(h)
    case ConnectionDenied => OpenFailed(h)
    case _ => Closed(h)
  }

  /** Notices sent, in list order, to those of the first n subscribers in the audience. */
  function Notices(subs: seq<Subscriber>, n: nat, e: Event, a: Audience): seq<Notice>
    requires n <= |subs|
  {
    if n == 0 then []
    else
      Notices(subs, n - 1, e, a) +
      (if Hears(a, subs[n - 1]) then [NoticeFor(e, subs[n - 1].handle)] else [])
  }

  /** Those of the first n subscribers outside the audience, in list order. */
  function Outside(subs: seq<Subscriber>, n: nat, a: Audience): seq<Subscriber>
    requires n <= |subs|
  {
    if n == 0 then []
    else Outside(subs, n - 1, a) + (if Hears(a, subs[n - 1]) then [] else [subs[n - 1]])
  }

  /** Those of the first n subscribers with another handle, in list order. */
  function Without(subs: seq<Subscriber>, n: nat, h: int): seq<Subscriber>
    requires n <= |subs|
  {
    if n == 0 then []
    else Without(subs, n - 1, h) + (if subs[n - 1].handle == h then [] else [subs[n - 1]])
  }

  function Deactivate(subs: seq<Subscriber>, h: int): (r: seq<Subscriber>)
    ensures |r| == |subs|
    ensures forall i :: 0 <= i < |r| ==>
      r[i] == if subs[i].handle == h then subs[i].(inactive := true) else subs[i]
  {
    seq(|subs|, i requires 0 <= i < |subs| =>
      if subs[i].handle == h then subs[i].(inactive := true) else subs[i])
  }

  function Add(subs: seq<Subscriber>, s: Subscriber): seq<Subscriber> {
    if Listed(subs, s.handle) then subs else subs + [s]
  }

  /** The transition for one event. */
  function Step(m: Machine, e: Event): Transition {
    match e
    case Subscribe(h, w) => OnSubscribe(m, Subscriber(h, w, false))
    case Unsubscribe(h, w) => OnUnsubscribe(m, h, w)
    case ConnectionGranted => OnGranted(m)
    case ConnectionReleased => OnReleased(m)
    case ConnectionDenied => OnDenied(m)
    case ModemRestart => Transition(m.(subs := []), [], None)
  }

  function OnSubscribe(m: Machine, s: Subscriber): Transition {
    var added := m.(subs := Add(m.subs, s));
    match m.state
    case Released => Transition(added.(state := Pending), [], Some(Request))
    case Acquired => Transition(added, [OpenOk(s.handle)], None)
    case _ => Transition(added, [], None)
  }

  /** A subscriber that waits for the close goes inactive; any other leaves the list. */
  function Retired(subs: seq<Subscriber>, h: int, wait: bool): seq<Subscriber> {
    if wait then Deactivate(subs, h) else Without(subs, |subs|, h)
  }

  function RetireNotice(h: int, wait: bool): seq<Notice> {
    if wait then [] else [Closed(h)]
  }

  function OnUnsubscribe(m: Machine, h: int, wait: bool): Transition {
    var left := Retired(m.subs, h, wait);
    var told := RetireNotice(h, wait);
    match m.state
    case Released => Transition(m, [Closed(h)], None)
    case Releasing =>
      Transition(Machine(if left == [] then Released else Releasing, left), told, None)
    case _ => Settle(m.state, left, told)
  }

  /** The connection is released as soon as nobody active is left. */
  function Settle(state: State, left: seq<Subscriber>, told: seq<Notice>): Transition {
    if left == [] then Transition(Machine(Released, left), told, Some(Release))
    else if !AnyActive(left) then Transition(Machine(Releasing, left), told, Some(Release))
    else Transition(Machine(state, left), told, None)
  }

  function OnGranted(m: Machine): Transition {
    if m.state == Pending then
      Transition(m.(state := Acquired), Notices(m.subs, |m.subs|, ConnectionGranted, ActiveOnes), None)
    else
      Transition(m, [], None)
  }

  /** Everybody is told and dropped. */
  function OnLoss(m: Machine, e: Event): Transition {
    Transition(Machine(Released, Outside(m.subs, |m.subs|, Everyone)), Notices(m.subs, |m.subs|, e, Everyone), None)
  }

  /** The connection has closed while it was being released: waiting subscribers are
      told, and the connection is requested again if somebody joined meanwhile. */
  function OnReleasingDone(m: Machine): Transition {
    var left := Outside(m.subs, |m.subs|, InactiveOnes);
    var told := Notices(m.subs, |m.subs|, ConnectionReleased, InactiveOnes);
    if AnyActive(left) then Transition(Machine(Pending, left), told, Some(Request))
    else Transition(Machine(Released, left), told, None)
  }

  function OnReleased(m: Machine): Transition {
    match m.state
    case Acquired => OnLoss(m, ConnectionReleased)
    case Releasing => OnReleasingDone(m)
    case _ => Transition(m, [], None)
  }

  function OnDenied(m: Machine): Transition {
    match m.state
    case Pending => OnLoss(m, ConnectionDenied)
    case Releasing => OnReleasingDone(m)
    case _ => Transition(m, [], None)
  }
}
