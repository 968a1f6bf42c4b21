/** The poller's bookkeeping against the kernel's interest set, as a step machine
    over file descriptors. */
module Interests {
  import opened Runs

  /** The events a channel asks for. */
  datatype Interest = Interest(read: bool, write: bool) {
    predicate IsNone() { !read && !write }
  }

  const NONE := Interest(false, false)

  /** A registered channel; one that is not `added` has been taken out of the
      kernel's set but is still known to the poller. */
  datatype Registered = Registered(added: bool, events: Interest)

  /** `failed` is set by a refused control call, which is fatal. */
  datatype Poller = Poller(known: map<nat, Registered>, kernel: map<nat, Interest>, failed: bool)

  const Fresh := Poller(map[], map[], false)

  datatype Control = Add | Mod | Del

  /** The kernel refuses to add a present descriptor or change an absent one. */
  function EpollCtl(p: Poller, op: Control, fd: nat, events: Interest): (r: Poller) {
    if (op == Add) == (fd in p.kernel) then p.(failed := true)
    else if op == Del then p.(kernel := p.kernel - {fd})
    else p.(kernel := p.kernel[fd := events])
  }

  function Update(p: Poller, fd: nat, events: Interest): (r: Poller) {
    if fd !in p.known || !p.known[fd].added then
      EpollCtl(p, Add, fd, events).(known := p.known[fd := Registered(true, events)])
    else if events.IsNone() then
      EpollCtl(p, Del, fd, events).(known := p.known[fd := Registered(false, events)])
    else
      EpollCtl(p, Mod, fd, events).(known := p.known[fd := Registered(true, events)])
  }

  ghost predicate SameButEvents(p: Poller, q: Poller, fd: nat) {
    && p.kernel == q.kernel && p.failed == q.failed && p.known.Keys == q.known.Keys
    && (forall d :: d in p.known ==> p.known[d].added == q.known[d].added)
    && (forall d :: d in p.known && d != fd ==> p.known[d] == q.known[d])
  }

  lemma UpdateIgnoresOldEvents(p: Poller, q: Poller, fd: nat, events: Interest)
    requires SameButEvents(p, q, fd)
    ensures Update(p, fd, events) == Update(q, fd, events)
  {
  }

  function Remove(p: Poller, fd: nat): (r: Poller)
    requires fd in p.known
  {
    var r := if p.known[fd].added then EpollCtl(p, Del, fd, NONE) else p;
    r.(known := p.known - {fd})
  }

  datatype Step = SetEvents(fd: nat, events: Interest) | RemoveChannel(fd: nat)

  /** Removing requires a known channel that asks for nothing. */
  function Next(p: Poller, step: Step): (r: Option<Poller>) {
    match step
    case SetEvents(fd, events) => Some(Update(p, fd, events))
    case RemoveChannel(fd) =>
      if fd in p.known && p.known[fd].events.IsNone() then Some(Remove(p, fd)) else None
  }

  /** The kernel watches exactly the added channels, for exactly what they ask. */
  ghost predicate Agree(p: Poller) {
    && !p.failed
    && (forall fd :: fd in p.kernel <==> fd in p.known && p.known[fd].added)
    && (forall fd :: fd in p.kernel ==> p.kernel[fd] == p.known[fd].events)
    && (forall fd :: fd in p.known && !p.known[fd].added ==> p.known[fd].events.IsNone())
  }

  lemma StepAgrees(p: Poller, step: Step)
    requires Agree(p) && Next(p, step).Some?
    ensures Agree(Next(p, step).value)
  {
  }

  /** What a channel has asked for last; nothing if it never did or was removed since. */
  function LastAsked(steps: seq<Step>, fd: nat): (r: Option<Interest>) {
    if steps == [] then None
    else
      match Last(steps)
      case SetEvents(d, events) => if d == fd then Some(events) else LastAsked(Front(steps), fd)
      case RemoveChannel(d) => if d == fd then None else LastAsked(Front(steps), fd)
  }

  ghost predicate Traced(p: Poller, steps: seq<Step>) {
    forall fd :: LastAsked(steps, fd) == if fd in p.known then Some(p.known[fd].events) else None
  }

  lemma StepTraced(p: Poller, steps: seq<Step>, l: Step)
    requires Traced(p, steps) && Next(p, l).Some?
    ensures Traced(Next(p, l).value, steps + [l])
  {
    Snoc(steps, l);
  }

  /** In every run no control call is refused, and the kernel watches each descriptor for
      what its channel has asked for last: always if that is something, never if it was
      removed or never asked. */
  lemma AlwaysAgree(steps: seq<Step>)
    requires Run(Next, Fresh, steps).Some?
    ensures Agree(Run(Next, Fresh, steps).value)
    ensures var p := Run(Next, Fresh, steps).value;
            && !p.failed
            && (forall fd :: fd in p.kernel ==> LastAsked(steps, fd) == Some(p.kernel[fd]))
            && (forall fd :: LastAsked(steps, fd).Some? && LastAsked(steps, fd) != Some(NONE) ==> fd in p.kernel)
  {
    forall p, ls, l | Agree(p) && Traced(p, ls) && Run(Next, Fresh, ls) == Some(p) && Next(p, l).Some?
      ensures Agree(Next(p, l).value) && Traced(Next(p, l).value, ls + [l])
    {
      StepAgrees(p, l);
      StepTraced(p, ls, l);
    }
    assert Agree(Fresh) && Traced(Fresh, []);
    RunKeepsTrace(Next, (p, ls) => Agree(p) && Traced(p, ls), Fresh, steps);
  }

  /** What the kernel watches for a channel is its latest request; a channel that
      asked for nothing twice in a row is watched again, for no events. */
  lemma LatestRequest(p: Poller, fd: nat, a: Interest, b: Interest)
    requires Agree(p)
    ensures var q := Update(Update(p, fd, a), fd, b);
            (fd in q.kernel <==> !b.IsNone() || (a.IsNone() && fd in p.kernel)) &&
            (fd in q.kernel ==> q.kernel[fd] == b)
  {
    var q := Update(p, fd, a);
    StepAgrees(p, SetEvents(fd, a));
    StepAgrees(q, SetEvents(fd, b));
  }
}
