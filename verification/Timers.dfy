/** The timer queue as a step machine: two ordered sets over reusable timer
    addresses, a batch of expired timers being run, and the timer descriptor. */
module Timers {
  import opened Runs

  const TIMESTAMP_MIN := -0x8000_0000_0000_0000
  const EPOCH := 0
  const UINTPTR_MAX := 0xffff_ffff_ffff_ffff

  type Timestamp = t: int | TIMESTAMP_MIN <= t
  // Readings of the clock; it never reads the minimum.
  type Clock = t: int | TIMESTAMP_MIN < t
  type Addr = a: nat | a < UINTPTR_MAX

  /** A `Timer` object; its callback is identified by its sequence number. */
  datatype Timer = Timer(expiration: Timestamp, interval: nat, repeat: bool, sequence: nat)

  datatype Entry = Entry(when: Timestamp, timer: nat)

  datatype Id = Id(timer: Addr, sequence: nat)

  /** `std::pair`'s order. */
  predicate Less(a: Entry, b: Entry) {
    a.when < b.when || (a.when == b.when && a.timer < b.timer)
  }

  ghost predicate Sorted(s: seq<Entry>) {
    forall i, j :: 0 <= i < j < |s| ==> Less(s[i], s[j])
  }

  /** The position of the first entry not below `e`. */
  function LowerBound(s: seq<Entry>, e: Entry): (n: nat)
    ensures n <= |s|
    ensures forall i :: 0 <= i < n ==> Less(s[i], e)
    ensures n < |s| ==> !Less(s[n], e)
  {
    if s == [] || !Less(s[0], e) then 0 else 1 + LowerBound(s[1..], e)
  }

  function Insert(s: seq<Entry>, e: Entry): (r: seq<Entry>) {
    var n := LowerBound(s, e);
    s[..n] + [e] + s[n..]
  }

  function Erase(s: seq<Entry>, e: Entry): (r: seq<Entry>) {
    var n := LowerBound(s, e);
    if n < |s| && s[n] == e then s[..n] + s[n + 1..] else s
  }

  lemma InsertSorted(s: seq<Entry>, e: Entry)
    requires Sorted(s) && e !in s
    ensures Sorted(Insert(s, e))
    ensures forall x :: x in Insert(s, e) <==> x == e || x in s
    ensures s != [] ==> Insert(s, e)[0] == if Less(e, s[0]) then e else s[0]
  {
    var n := LowerBound(s, e);
    assert forall i :: n <= i < |s| ==> Less(e, s[i]);
    SortedWith(s, n, e);
    MembersWith(s, n, e);
  }

  lemma SortedWith(s: seq<Entry>, n: nat, e: Entry)
    requires Sorted(s) && n <= |s|
    requires (forall i :: 0 <= i < n ==> Less(s[i], e)) && (forall i :: n <= i < |s| ==> Less(e, s[i]))
    ensures Sorted(s[..n] + [e] + s[n..])
  {
    var r := s[..n] + [e] + s[n..];
    forall i, j | 0 <= i < j < |r| ensures Less(r[i], r[j]) {
      var x, y := if i < n then i else i - 1, if j < n then j else j - 1;
      assert i != n ==> r[i] == s[x];
      assert j != n ==> r[j] == s[y];
    }
  }

  lemma MembersWith(s: seq<Entry>, n: nat, e: Entry)
    requires n <= |s|
    ensures forall x :: x in s[..n] + [e] + s[n..] <==> x == e || x in s
  {
    assert s == s[..n] + s[n..];
  }

  lemma EraseSorted(s: seq<Entry>, e: Entry)
    requires Sorted(s) && e in s
    ensures Sorted(Erase(s, e)) && |Erase(s, e)| == |s| - 1
    ensures forall x :: x in Erase(s, e) <==> x in s && x != e
    ensures Erase(s, e) != [] ==> s[0].when <= Erase(s, e)[0].when
  {
    var n, r := LowerBound(s, e), Erase(s, e);
    var k :| 0 <= k < |s| && s[k] == e;
    assert n == k;
    assert forall i :: 0 <= i < n ==> r[i] == s[i];
    assert forall i :: n <= i < |r| ==> r[i] == s[i + 1];
    assert forall i :: n < i < |s| ==> r[i - 1] == s[i];
  }

  /** The whole state. `batch` is the vector of expired entries while they are
      being run, `ran` how many have been; `log` records each callback run, and
      `zeroDelay` that the descriptor was last set to no time at all, which
      disarms it. `inflight` are timers created but not yet inserted. */
  datatype Queue = Queue(
    heap: map<Addr, Timer>,
    created: nat,
    inflight: set<Addr>,
    timers: seq<Entry>,
    active: set<Id>,
    calling: bool,
    canceling: set<Id>,
    batch: seq<Entry>,
    ran: nat,
    readTime: Clock,
    armed: Option<Timestamp>,
    zeroDelay: bool,
    aborted: bool,
    log: seq<Id>)

  const Empty := Queue(map[], 0, {}, [], {}, false, {}, [], 0, EPOCH, None, false, false, [])

  datatype Step =
    | Create(timer: Addr, when: Timestamp, interval: nat, repeat: bool)
    | AddInLoop(timer: Addr, clock: Clock)
    | CancelInLoop(id: Id)
    | BeginRead(now: Clock)
    | RunNext
    | EndRead(clock: Clock)

  /** Setting the descriptor to a deadline, the clock reading `clock`: a negative
      delay is refused and fatal, and a zero delay disarms. */
  function ResetTimerfd(q: Queue, deadline: Timestamp, clock: Clock): (r: Queue) {
    if deadline < clock then q.(aborted := true)
    else if deadline == clock then q.(armed := None, zeroDelay := true)
    else q.(armed := Some(deadline), zeroDelay := false)
  }

  function IdOf(q: Queue, a: Addr): (r: Id)
    requires a in q.heap
  {
    Id(a, q.heap[a].sequence)
  }

  function EntryOf(q: Queue, a: Addr): (r: Entry)
    requires a in q.heap
  {
    Entry(q.heap[a].expiration, a)
  }

  predicate Scheduled(q: Queue, a: Addr) {
    a in q.heap && EntryOf(q, a) in q.timers
  }

  predicate InBatch(q: Queue, a: Addr) {
    a in q.heap && EntryOf(q, a) in q.batch
  }

  /** `id` names a timer that exists now. */
  predicate Live(q: Queue, id: Id) {
    id.timer in q.heap && q.heap[id.timer].sequence == id.sequence
  }

  /** Both sets get the timer. */
  function InsertTimer(q: Queue, a: Addr): (r: Queue)
    requires a in q.heap
  {
    q.(timers := Insert(q.timers, EntryOf(q, a)), active := q.active + {IdOf(q, a)})
  }

  predicate EarliestChanged(q: Queue, a: Addr)
    requires a in q.heap
  {
    q.timers == [] || q.heap[a].expiration < q.timers[0].when
  }

  function AddTimer(q: Queue, a: Addr, clock: Clock): (r: Queue)
    requires a in q.heap
  {
    var r := InsertTimer(q.(inflight := q.inflight - {a}), a);
    if EarliestChanged(q, a) then ResetTimerfd(r, q.heap[a].expiration, clock) else r
  }

  function Cancel(q: Queue, id: Id): (r: Queue) {
    if id in q.active then
      if id.timer in q.heap then
        q.(timers := Erase(q.timers, EntryOf(q, id.timer)), active := q.active - {id}, heap := q.heap - {id.timer})
      else q
    else if q.calling then q.(canceling := q.canceling + {id})
    else q
  }

  /** How many entries have expired: those below the sentry, whose address is above all. */
  function ExpiredCount(timers: seq<Entry>, now: Clock): (n: nat)
    ensures n <= |timers|
  {
    LowerBound(timers, Entry(now, UINTPTR_MAX))
  }

  ghost function IdsOf(q: Queue, s: seq<Entry>): (r: set<Id>) {
    set e | e in s && e.timer in q.heap :: Id(e.timer, q.heap[e.timer].sequence)
  }

  ghost function GetExpired(q: Queue, now: Clock): (r: Queue) {
    var n := ExpiredCount(q.timers, now);
    q.(batch := q.timers[..n], timers := q.timers[n..], active := q.active - IdsOf(q, q.timers[..n]))
  }

  ghost function StartBatch(q: Queue, now: Clock): (r: Queue) {
    GetExpired(q, now).(calling := true, canceling := {}, ran := 0, readTime := now,
                        armed := if q.armed.Some? && q.armed.value <= now then None else q.armed)
  }

  function RunOne(q: Queue): (r: Queue)
    requires q.ran < |q.batch| && q.batch[q.ran].timer in q.heap
  {
    q.(ran := q.ran + 1, log := q.log + [IdOf(q, q.batch[q.ran].timer)])
  }

  /** One expired timer is restarted and inserted again, or deleted. */
  function ResetOne(q: Queue): (r: Queue)
    requires q.batch != []
  {
    var a, rest := q.batch[0].timer, q.(batch := q.batch[1..]);
    if a !in q.heap then rest
    else if q.heap[a].repeat && IdOf(q, a) !in q.canceling then
      var t := q.heap[a].(expiration := q.readTime + q.heap[a].interval);
      InsertTimer(rest.(heap := q.heap[a := t]), a)
    else rest.(heap := q.heap - {a})
  }

  function ResetAll(q: Queue): (r: Queue)
    decreases |q.batch|
  {
    if q.batch == [] then q else ResetAll(ResetOne(q))
  }

  /** The next deadline, the epoch when nothing is scheduled. */
  function NextExpire(q: Queue): (r: Timestamp) {
    if q.timers == [] then EPOCH else q.timers[0].when
  }

  function FinishBatch(q: Queue, clock: Clock): (r: Queue) {
    var r := ResetAll(q.(calling := false, ran := 0));
    if NextExpire(r) != TIMESTAMP_MIN then ResetTimerfd(r, NextExpire(r), clock) else r
  }

  ghost function Next(q: Queue, step: Step): (r: Option<Queue>) {
    if q.aborted then None
    else
      match step
      case Create(a, when, interval, repeat) =>
        if a in q.heap then None
        else Some(q.(heap := q.heap[a := Timer(when, interval, repeat, q.created + 1)],
                     created := q.created + 1, inflight := q.inflight + {a}))
      case AddInLoop(a, clock) =>
        if a in q.inflight && a in q.heap then Some(AddTimer(q, a, clock)) else None
      case CancelInLoop(id) => Some(Cancel(q, id))
      case BeginRead(now) => if q.calling then None else Some(StartBatch(q, now))
      case RunNext =>
        if q.calling && q.ran < |q.batch| && q.batch[q.ran].timer in q.heap then Some(RunOne(q)) else None
      case EndRead(clock) =>
        if q.calling && q.ran == |q.batch| then Some(FinishBatch(q, clock)) else None
  }

  // ----- The sets agree

  /** Every entry's key is its timer's stored expiration. */
  ghost predicate KeysMatch(q: Queue) {
    forall e :: e in q.timers || e in q.batch ==> e.timer in q.heap && q.heap[e.timer].expiration == e.when
  }

  /** The two sets hold the same timers. */
  ghost predicate SetsMatch(q: Queue) {
    forall id :: id in q.active <==> Live(q, id) && Scheduled(q, id.timer)
  }

  /** Every timer object is in exactly one place. */
  ghost predicate OnePlace(q: Queue) {
    && (forall a :: a in q.inflight ==> a in q.heap && !Scheduled(q, a) && !InBatch(q, a))
    && (forall a :: a in q.heap ==> a in q.inflight || Scheduled(q, a) || InBatch(q, a))
    && (forall a :: !(Scheduled(q, a) && InBatch(q, a)))
  }

  ghost predicate SequencesUnique(q: Queue) {
    && (forall a :: a in q.heap ==> q.heap[a].sequence <= q.created)
    && (forall a, b :: a in q.heap && b in q.heap && a != b ==> q.heap[a].sequence != q.heap[b].sequence)
  }

  ghost predicate Agree(q: Queue) {
    Sorted(q.timers) && Sorted(q.batch) && KeysMatch(q) && SetsMatch(q) && OnePlace(q) && SequencesUnique(q)
  }

  ghost predicate Inv(q: Queue) {
    && Agree(q)
    && q.ran <= |q.batch|
    && (!q.calling ==> q.batch == [])
  }
}
