/**
 The event bus (controller/internal/events/bus.go:43-137) and the extension dispatcher behind one of its
 subscriptions (controller/internal/extensions/dispatcher.go:92-160). A bus call holds the bus mutex and is one
 step; the dispatcher's goroutine and the workers interleave with it and with each other.
 */
module Pipeline {
  import opened Common

  /** A prepared event; its id is a hash of its content. */
  datatype Event = Event(id: string, content: string)

  // ---------------------------------------------------------------- subsequences

  ghost predicate Subsequence<T>(a: seq<T>, b: seq<T>) {
    if a == [] then true
    else if b == [] then false
    else
      var x, y := |a| - 1, |b| - 1;
      (a[x] == b[y] && Subsequence(a[..x], b[..y])) || Subsequence(a, b[..y])
  }

  lemma SubsequenceGrows<T>(a: seq<T>, b: seq<T>, e: T)
    requires Subsequence(a, b)
    ensures Subsequence(a, b + [e]) && Subsequence(a + [e], b + [e])
  {
    assert (b + [e])[..|b|] == b && (a + [e])[..|a|] == a;
  }

  /** Prefixes of a subsequence are subsequences, of anything longer too. */
  lemma {:induction false} SubsequencePrefix<T>(a: seq<T>, b: seq<T>, n: nat)
    requires Subsequence(a, b) && n <= |a|
    ensures Subsequence(a[..n], b)
    decreases |b|
  {
    if n < |a| {
      var x, y := |a| - 1, |b| - 1;
      if a[x] == b[y] && Subsequence(a[..x], b[..y]) {
        SubsequencePrefix(a[..x], b[..y], n);
        assert a[..x][..n] == a[..n];
      } else {
        SubsequencePrefix(a, b[..y], n);
      }
    } else {
      assert a[..n] == a;
    }
  }

  lemma {:induction false} SubsequenceTransitive<T>(a: seq<T>, b: seq<T>, c: seq<T>)
    requires Subsequence(a, b) && Subsequence(b, c)
    ensures Subsequence(a, c)
    decreases |b| + |c|
  {
    if a == [] {
    } else {
      var x, y, z := |a| - 1, |b| - 1, |c| - 1;
      if b[y] == c[z] && Subsequence(b[..y], c[..z]) {
        if a[x] == b[y] && Subsequence(a[..x], b[..y]) {
          SubsequenceTransitive(a[..x], b[..y], c[..z]);
        } else {
          SubsequenceTransitive(a, b[..y], c[..z]);
        }
      } else {
        SubsequenceTransitive(a, b, c[..z]);
      }
    }
  }

  /** A subsequence is no longer than the whole, and as long only if it is the whole. */
  lemma {:induction false} SubsequenceLength<T>(a: seq<T>, b: seq<T>)
    requires Subsequence(a, b)
    ensures |a| <= |b| && (|a| == |b| ==> a == b)
    decreases |b|
  {
    if a == [] {
    } else {
      var x, y := |a| - 1, |b| - 1;
      if a[x] == b[y] && Subsequence(a[..x], b[..y]) {
        SubsequenceLength(a[..x], b[..y]);
        assert a == a[..x] + [a[x]] && b == b[..y] + [b[y]];
      } else {
        SubsequenceLength(a, b[..y]);
      }
    }
  }

  predicate Distinct(s: seq<Event>) {
    forall i, j | 0 <= i < j < |s| :: s[i].id != s[j].id
  }

  lemma {:induction false} SubsequenceMembers(a: seq<Event>, b: seq<Event>)
    requires Subsequence(a, b)
    ensures forall e | e in a :: e in b
    decreases |b|
  {
    if a == [] {
    } else {
      var x, y := |a| - 1, |b| - 1;
      assert a == a[..x] + [a[x]] && b == b[..y] + [b[y]];
      if a[x] == b[y] && Subsequence(a[..x], b[..y]) {
        SubsequenceMembers(a[..x], b[..y]);
      } else {
        SubsequenceMembers(a, b[..y]);
      }
    }
  }

  lemma {:induction false} SubsequenceDistinct(a: seq<Event>, b: seq<Event>)
    requires Subsequence(a, b) && Distinct(b)
    ensures Distinct(a)
    decreases |b|
  {
    if a == [] {
    } else {
      var x, y := |a| - 1, |b| - 1;
      if a[x] == b[y] && Subsequence(a[..x], b[..y]) {
        SubsequenceDistinct(a[..x], b[..y]);
        SubsequenceMembers(a[..x], b[..y]);
        forall i | 0 <= i < x ensures a[i].id != a[x].id {
          assert a[i] in a[..x];
        }
      } else {
        SubsequenceDistinct(a, b[..y]);
      }
    }
  }

  // ---------------------------------------------------------------- the bus

  /**
   A subscription: its channel, how many events found the channel full, and two histories, the events sent into
   the channel and the stretch of publications during which it was subscribed.
   */
  datatype Subscription = Subscription(since: nat, until: Option<nat>, channel: seq<Event>, sent: seq<Event>,
    dropped: nat)

  /** `published` is the history of distinct accepted events; its length is the Published metric. */
  datatype Bus = Bus(buffer: nat, closed: bool, published: seq<Event>, duplicates: nat, dropped: nat,
    subs: seq<Subscription>)

  predicate Known(b: Bus, id: string) {
    exists i :: 0 <= i < |b.published| && b.published[i].id == id
  }

  function Offered(s: Subscription, e: Event, buffer: nat): Subscription {
    if s.until.Some? then s
    else if |s.channel| < buffer then s.(channel := s.channel + [e], sent := s.sent + [e])
    else s.(dropped := s.dropped + 1)
  }

  function OfferedAll(subs: seq<Subscription>, e: Event, buffer: nat): (r: seq<Subscription>)
    ensures |r| == |subs| && forall i | 0 <= i < |subs| :: r[i] == Offered(subs[i], e, buffer)
  {
    seq(|subs|, i requires 0 <= i < |subs| => Offered(subs[i], e, buffer))
  }

  function DroppedBy(subs: seq<Subscription>): nat {
    if subs == [] then 0 else DroppedBy(subs[..|subs| - 1]) + subs[|subs| - 1].dropped
  }

  ghost function Published(b: Bus, e: Event): Bus {
    if b.closed then b
    else if Known(b, e.id) then b.(duplicates := b.duplicates + 1)
    else
      var subs := OfferedAll(b.subs, e, b.buffer);
      b.(published := b.published + [e], subs := subs, dropped := DroppedBy(subs))
  }

  function Subscribed(b: Bus): Bus {
    if b.closed then b else b.(subs := b.subs + [Subscription(|b.published|, None, [], [], 0)])
  }

  function Ended(s: Subscription, at: nat): Subscription {
    if s.until.Some? then s else s.(until := Some(at))
  }

  function Unsubscribed(b: Bus, i: nat): Bus {
    if i < |b.subs| then b.(subs := b.subs[i := Ended(b.subs[i], |b.published|)]) else b
  }

  function Closed(b: Bus): Bus {
    b.(closed := true, subs := seq(|b.subs|, i requires 0 <= i < |b.subs| => Ended(b.subs[i], |b.published|)))
  }

  /** The events published while the subscription was open. */
  function Window(s: Subscription, published: seq<Event>): seq<Event>
    requires s.since <= (if s.until.Some? then s.until.value else |published|) <= |published|
  {
    published[s.since..if s.until.Some? then s.until.value else |published|]
  }

  /** Each event of the window was sent or dropped, and the sent ones are in order. */
  ghost predicate Accounted(s: Subscription, published: seq<Event>) {
    && s.since <= (if s.until.Some? then s.until.value else |published|) <= |published|
    && |s.sent| + s.dropped == |Window(s, published)|
    && Subsequence(s.sent, Window(s, published))
  }

  ghost predicate Sound(b: Bus) {
    && Distinct(b.published)
    && (forall i | 0 <= i < |b.subs| :: Accounted(b.subs[i], b.published))
    && b.dropped == DroppedBy(b.subs)
  }

  lemma OfferKeepsAccounted(s: Subscription, published: seq<Event>, e: Event, buffer: nat)
    requires Accounted(s, published)
    ensures Accounted(Offered(s, e, buffer), published + [e])
  {
    var w := Window(s, published);
    if s.until.None? {
      assert Window(Offered(s, e, buffer), published + [e]) == w + [e];
      SubsequenceGrows(s.sent, w, e);
    } else {
      assert Window(s, published + [e]) == w;
    }
  }

  lemma PublishKeepsSound(b: Bus, e: Event)
    requires Sound(b)
    ensures Sound(Published(b, e))
  {
    if !b.closed && !Known(b, e.id) {
      var b' := Published(b, e);
      forall i | 0 <= i < |b'.subs| ensures Accounted(b'.subs[i], b'.published) {
        OfferKeepsAccounted(b.subs[i], b.published, e, b.buffer);
      }
      forall i, j | 0 <= i < j < |b'.published| ensures b'.published[i].id != b'.published[j].id {
        if j == |b.published| {
          assert !Known(b, e.id);
        }
      }
    }
  }

  /** The bus is open and has not accepted an event of this id before. */
  predicate IsNews(b: Bus, e: Event) {
    !b.closed && forall p | p in b.published :: p.id != e.id
  }

  /** A new event is published once; every open subscription gets it if its channel has room, and else counts it. */
  lemma PublicationReaches(b: Bus, e: Event, i: nat)
    requires i < |b.subs|
    ensures var b', s, s' := Published(b, e), b.subs[i], Published(b, e).subs[i];
      && b'.published == (if IsNews(b, e) then b.published + [e] else b.published)
      && b'.duplicates == b.duplicates + (if !b.closed && !IsNews(b, e) then 1 else 0)
      && s' == if !IsNews(b, e) || s.until.Some? then s
          else if |s.channel| < b.buffer then s.(channel := s.channel + [e], sent := s.sent + [e])
          else s.(dropped := s.dropped + 1)
  {
    hide DroppedBy;
    if p :| p in b.published && p.id == e.id {
      var n :| 0 <= n < |b.published| && b.published[n] == p;
      assert Known(b, e.id);
    }
  }

  lemma SameDropped(subs: seq<Subscription>, others: seq<Subscription>)
    requires |subs| == |others| && forall i | 0 <= i < |subs| :: subs[i].dropped == others[i].dropped
    ensures DroppedBy(subs) == DroppedBy(others)
  {
    if subs != [] {
      SameDropped(subs[..|subs| - 1], others[..|others| - 1]);
    }
  }

  lemma EndKeepsAccounted(s: Subscription, published: seq<Event>)
    requires Accounted(s, published)
    ensures Accounted(Ended(s, |published|), published)
  {
    assert Window(Ended(s, |published|), published) == Window(s, published);
  }

  lemma SubscribeKeepsSound(b: Bus)
    requires Sound(b)
    ensures Sound(Subscribed(b))
  {
    hide Subsequence, Distinct;
    if !b.closed {
      var b' := Subscribed(b);
      assert b'.subs[..|b.subs|] == b.subs;
      FreshIsAccounted(b.published);
      forall i | 0 <= i < |b'.subs| ensures Accounted(b'.subs[i], b'.published) {
      }
    }
  }

  lemma FreshIsAccounted(published: seq<Event>)
    ensures Accounted(Subscription(|published|, None, [], [], 0), published)
  {
    assert Window(Subscription(|published|, None, [], [], 0), published) == [];
  }

  lemma UnsubscribeKeepsSound(b: Bus, i: nat)
    requires Sound(b)
    ensures Sound(Unsubscribed(b, i))
  {
    hide Accounted, Distinct;
    if i < |b.subs| {
      EndKeepsAccounted(b.subs[i], b.published);
      SameDropped(b.subs, Unsubscribed(b, i).subs);
    }
  }

  lemma CloseKeepsSound(b: Bus)
    requires Sound(b)
    ensures Sound(Closed(b))
  {
    hide Accounted, Distinct;
    forall j | 0 <= j < |b.subs| ensures Accounted(Ended(b.subs[j], |b.published|), b.published) {
      EndKeepsAccounted(b.subs[j], b.published);
    }
    SameDropped(b.subs, Closed(b).subs);
  }

  lemma {:induction false} DroppedAfter(subs: seq<Subscription>, i: nat, s: Subscription)
    requires i < |subs|
    ensures DroppedBy(subs[i := s]) == DroppedBy(subs) - subs[i].dropped + s.dropped
  {
    var n := |subs| - 1;
    if i < n {
      DroppedAfter(subs[..n], i, s);
      assert subs[i := s][..n] == subs[..n][i := s];
    } else {
      assert subs[i := s][..n] == subs[..n];
    }
  }

  class EventBus {
    const buffer: nat
    var closed: bool
    var dedup: set<string>
    var subs: seq<Subscription>
    var open: set<nat>
    var publishedCount: nat
    var duplicates: nat
    var dropped: nat
    ghost var published: seq<Event>

    ghost function Contents(): Bus
      reads this
    {
      Bus(buffer, closed, published, duplicates, dropped, subs)
    }

    /** The map of subscribers holds exactly the open subscriptions, the dedup table the ids published. */
    ghost predicate Valid()
      reads this
    {
      && Sound(Contents()) && publishedCount == |published|
      && (forall id :: id in dedup <==> Known(Contents(), id))
      && (forall i :: i in open <==> 0 <= i < |subs| && subs[i].until.None?)
      && (closed ==> open == {})
    }

    constructor (capacity: int)
      ensures Valid() && Contents() == Bus(if capacity <= 0 then 64 else capacity, false, [], 0, 0, [])
    {
      buffer := if capacity <= 0 then 64 else capacity;
      closed, dedup, subs, open, publishedCount, duplicates, dropped := false, {}, [], {}, 0, 0, 0;
      published := [];
    }

    method Subscribe() returns (r: Option<nat>)
      requires Valid()
      modifies this
      ensures Valid() && Contents() == Subscribed(old(Contents()))
      ensures r == if old(closed) then None else Some(|old(subs)|)
    {
      hide Sound, DroppedBy;
      SubscribeKeepsSound(Contents());
      if closed {
        return None;
      }
      r := Some(|subs|);
      open := open + {|subs|};
      subs := subs + [Subscription(publishedCount, None, [], [], 0)];
    }

    /** Every open subscription is offered the event, in whatever order the map yields them. */
    method Publish(e: Event) returns (ok: bool)
      requires Valid()
      modifies this
      ensures Valid() && Contents() == Published(old(Contents()), e) && ok == !old(closed)
    {
      hide Sound, DroppedBy, Known;
      PublishKeepsSound(Contents(), e);
      DroppedIsCounted(Contents());
      if closed {
        return false;
      }
      if e.id in dedup {
        duplicates := duplicates + 1;
        SameIds(old(Contents()), Contents());
        return true;
      }
      dedup := dedup + {e.id};
      publishedCount := publishedCount + 1;
      ghost var before := subs;
      ghost var offered := OfferedAll(subs, e, buffer);
      var todo := open;
      while todo != {}
        invariant todo <= open && |subs| == |before|
        invariant forall i | 0 <= i < |subs| :: subs[i] == if i in open - todo then offered[i] else before[i]
        invariant dropped == DroppedBy(subs)
        modifies this`subs, this`dropped
        decreases todo
      {
        var i :| i in todo;
        todo := todo - {i};
        var s := subs[i];
        if |s.channel| < buffer {
          s := s.(channel := s.channel + [e], sent := s.sent + [e]);
        } else {
          s := s.(dropped := s.dropped + 1);
          dropped := dropped + 1;
        }
        DroppedAfter(subs, i, s);
        subs := subs[i := s];
      }
      assert subs == offered;
      published := published + [e];
      KnownAfter(old(Contents()), Contents(), e);
      ok := true;
    }

    method Close()
      requires Valid()
      modifies this
      ensures Valid() && Contents() == if old(closed) then old(Contents()) else Closed(old(Contents()))
    {
      hide Sound, DroppedBy, Known;
      if closed {
        return;
      }
      CloseKeepsSound(Contents());
      SameIds(Contents(), Closed(Contents()));
      closed := true;
      ghost var before := subs;
      while open != {}
        invariant |subs| == |before|
        invariant forall i :: i in open <==> 0 <= i < |subs| && subs[i].until.None?
        invariant forall i | 0 <= i < |subs| ::
          subs[i] == if i in open then before[i] else Ended(before[i], publishedCount)
        modifies this`subs, this`open
        decreases open
      {
        var i :| i in open;
        subs := subs[i := subs[i].(until := Some(publishedCount))];
        open := open - {i};
      }
      assert subs == Closed(old(Contents())).subs;
    }

    /** remove, as Subscription.Close calls it */
    method Remove(i: nat)
      requires Valid() && i < |subs|
      modifies this
      ensures Valid() && Contents() == Unsubscribed(old(Contents()), i)
    {
      hide Sound, DroppedBy, Known;
      UnsubscribeKeepsSound(Contents(), i);
      SameIds(Contents(), Unsubscribed(Contents(), i));
      if i !in open {
        assert subs[i := subs[i]] == subs;
        return;
      }
      open := open - {i};
      subs := subs[i := subs[i].(until := Some(publishedCount))];
    }
  }

  lemma DroppedIsCounted(b: Bus)
    requires Sound(b)
    ensures b.dropped == DroppedBy(b.subs)
  {
  }

  lemma SameIds(b: Bus, b': Bus)
    requires b'.published == b.published
    ensures forall id :: Known(b', id) <==> Known(b, id)
  {
  }

  lemma KnownAfter(b: Bus, b': Bus, e: Event)
    requires b'.published == b.published + [e]
    ensures forall id :: Known(b', id) <==> Known(b, id) || id == e.id
  {
    assert b'.published[|b.published|] == e;
    forall id | Known(b, id) ensures Known(b', id) {
      var i :| 0 <= i < |b.published| && b.published[i].id == id;
      assert b'.published[i].id == id;
    }
  }

  // ---------------------------------------------------------------- one extension

  datatype Outcome = Success | Error | Timeout | Panic

  /** `accepted` and `handled` are histories: what entered the queue and what was executed. */
  datatype Runtime = Runtime(
    queue: seq<Event>, running: Option<Event>, accepted: seq<Event>, handled: seq<Event>,
    received: nat, queued: nat, dropped: nat, succeeded: nat, failed: nat, panicked: nat, timedOut: nat)

  const IDLE := Runtime([], None, [], [], 0, 0, 0, 0, 0, 0, 0)

  function Fed(r: Runtime, e: Event, size: nat): Runtime {
    if |r.queue| < size then
      r.(queue := r.queue + [e], accepted := r.accepted + [e], received := r.received + 1, queued := r.queued + 1)
    else r.(received := r.received + 1, dropped := r.dropped + 1)
  }

  function Begun(r: Runtime): Runtime {
    if r.running.None? && r.queue != [] then r.(queue := r.queue[1..], running := Some(r.queue[0])) else r
  }

  function Executed(r: Runtime, o: Outcome): Runtime {
    if r.running.None? then r
    else
      r.(running := None, handled := r.handled + [r.running.value],
         succeeded := if o.Success? then r.succeeded + 1 else r.succeeded,
         failed := if o.Success? then r.failed else r.failed + 1,
         panicked := if o.Panic? then r.panicked + 1 else r.panicked,
         timedOut := if o.Timeout? then r.timedOut + 1 else r.timedOut)
  }

  function InFlight(r: Runtime): seq<Event> {
    if r.running.Some? then [r.running.value] else []
  }

  /** The counters agree with what was offered, and the histories with the queue. */
  ghost predicate Balanced(r: Runtime, offered: seq<Event>) {
    && r.received == |offered| == r.queued + r.dropped
    && r.queued == |r.accepted| == r.succeeded + r.failed + |InFlight(r)| + |r.queue|
    && r.panicked + r.timedOut <= r.failed
    && r.accepted == r.handled + InFlight(r) + r.queue
    && Subsequence(r.accepted, offered)
  }

  lemma FeedingBalances(r: Runtime, offered: seq<Event>, e: Event, size: nat)
    requires Balanced(r, offered)
    ensures Balanced(Fed(r, e, size), offered + [e])
  {
    SubsequenceGrows(r.accepted, offered, e);
  }

  lemma BeginningBalances(r: Runtime, offered: seq<Event>)
    requires Balanced(r, offered)
    ensures Balanced(Begun(r), offered)
  {
    hide Subsequence;
    if r.queue != [] {
      assert r.queue == [r.queue[0]] + r.queue[1..];
    }
  }

  lemma WorkingBalances(r: Runtime, offered: seq<Event>, o: Outcome)
    requires Balanced(r, offered)
    ensures Balanced(Begun(r), offered) && Balanced(Executed(r, o), offered)
  {
    hide Subsequence;
    BeginningBalances(r, offered);
  }

  class RuntimeExtension {
    const size: nat
    var queue: seq<Event>
    var received: nat
    var queued: nat
    var dropped: nat
    var succeeded: nat
    var failed: nat
    var panicked: nat
    var timedOut: nat
    ghost var running: Option<Event>
    ghost var accepted: seq<Event>
    ghost var handled: seq<Event>

    ghost function Contents(): Runtime
      reads this
    {
      Runtime(queue, running, accepted, handled, received, queued, dropped, succeeded, failed, panicked, timedOut)
    }

    constructor (size: nat)
      ensures Contents() == IDLE && this.size == size
    {
      this.size := size;
      queue, running, accepted, handled := [], None, [], [];
      received, queued, dropped, succeeded, failed, panicked, timedOut := 0, 0, 0, 0, 0, 0, 0;
    }

    /** The body of the dispatch loop for one runtime. */
    method Offer(e: Event)
      modifies this
      ensures Contents() == Fed(old(Contents()), e, size)
    {
      received := received + 1;
      if |queue| < size {
        queue := queue + [e];
        accepted := accepted + [e];
        queued := queued + 1;
      } else {
        dropped := dropped + 1;
      }
    }

    /** The worker takes the oldest event. */
    method Take() returns (e: Event)
      requires running.None? && queue != []
      modifies this
      ensures Contents() == Begun(old(Contents())) && e == old(queue[0]) && running == Some(e)
    {
      e := queue[0];
      queue := queue[1..];
      running := Some(e);
    }

    /** execute, for the event in flight and the way the extension ended */
    method Execute(e: Event, o: Outcome)
      requires running == Some(e)
      modifies this
      ensures Contents() == Executed(old(Contents()), o)
    {
      if o.Panic? {
        panicked := panicked + 1;
        failed := failed + 1;
      } else if !o.Success? {
        failed := failed + 1;
        if o.Timeout? {
          timedOut := timedOut + 1;
        }
      } else {
        succeeded := succeeded + 1;
      }
      running := None;
      handled := handled + [e];
    }
  }

  // ---------------------------------------------------------------- the whole pipeline

  /** The dispatcher reads subscription `mine`; `hand` is the event it is offering and the next extension's number. */
  datatype System = System(bus: Bus, mine: nat, size: nat, taken: seq<Event>, hand: Option<(Event, nat)>,
    runtimes: seq<Runtime>)

  datatype Action =
    | Publish(event: Event)
    | Subscribe
    | Unsubscribe(sub: nat)
    | CloseBus
    | Receive
    | Offer
    | Begin(extension: nat)
    | Finish(extension: nat, outcome: Outcome)

  ghost function Act(s: System, a: Action): System
    requires s.mine < |s.bus.subs|
  {
    match a
    case Publish(e) => s.(bus := Published(s.bus, e))
    case Subscribe => s.(bus := Subscribed(s.bus))
    case Unsubscribe(i) => s.(bus := Unsubscribed(s.bus, i))
    case CloseBus => s.(bus := Closed(s.bus))
    case Receive =>
      var sub := s.bus.subs[s.mine];
      if s.hand.Some? || sub.channel == [] then s
      else
        var e := sub.channel[0];
        s.(bus := s.bus.(subs := s.bus.subs[s.mine := sub.(channel := sub.channel[1..])]), taken := s.taken + [e],
          hand := Some((e, 0)))
    case Offer =>
      if s.hand.None? then s
      else
        var (e, n) := s.hand.value;
        if n >= |s.runtimes| then s.(hand := None)
        else s.(runtimes := s.runtimes[n := Fed(s.runtimes[n], e, s.size)], hand := Some((e, n + 1)))
    case Begin(n) => if n < |s.runtimes| then s.(runtimes := s.runtimes[n := Begun(s.runtimes[n])]) else s
    case Finish(n, o) => if n < |s.runtimes| then s.(runtimes := s.runtimes[n := Executed(s.runtimes[n], o)]) else s
  }

  /** What extension `n` has been offered so far: everything taken, but perhaps not the event in hand. */
  function OfferedTo(s: System, n: nat): seq<Event> {
    if s.hand.Some? && s.hand.value.1 <= n && s.taken != [] then s.taken[..|s.taken| - 1] else s.taken
  }

  ghost predicate Sane(s: System) {
    && Sound(s.bus) && s.mine < |s.bus.subs|
    && s.bus.subs[s.mine].sent == s.taken + s.bus.subs[s.mine].channel
    && (s.hand.Some? ==> s.taken != [] && s.taken[|s.taken| - 1] == s.hand.value.0)
    && (forall n | 0 <= n < |s.runtimes| :: Balanced(s.runtimes[n], OfferedTo(s, n)))
  }

  lemma BusStepsKeepSane(s: System, a: Action)
    requires Sane(s) && (a.Publish? || a.Subscribe? || a.Unsubscribe? || a.CloseBus?)
    ensures Sane(Act(s, a))
  {
    hide Sound, Balanced, Known, DroppedBy;
    match a
    case Publish(e) => PublishKeepsSound(s.bus, e);
    case Subscribe => SubscribeKeepsSound(s.bus);
    case Unsubscribe(i) => UnsubscribeKeepsSound(s.bus, i);
    case CloseBus => CloseKeepsSound(s.bus);
    forall n | 0 <= n < |s.runtimes| ensures Balanced(Act(s, a).runtimes[n], OfferedTo(Act(s, a), n)) {
      assert OfferedTo(Act(s, a), n) == OfferedTo(s, n);
    }
  }

  lemma TakingKeepsSound(b: Bus, i: nat)
    requires Sound(b) && i < |b.subs| && b.subs[i].channel != []
    ensures var s := b.subs[i]; Sound(b.(subs := b.subs[i := s.(channel := s.channel[1..])]))
  {
    hide Subsequence, Distinct;
    var subs := b.subs[i := b.subs[i].(channel := b.subs[i].channel[1..])];
    SameDropped(b.subs, subs);
    forall j | 0 <= j < |subs| ensures Accounted(subs[j], b.published) {
      assert Accounted(b.subs[j], b.published);
      assert Window(subs[j], b.published) == Window(b.subs[j], b.published);
    }
  }

  lemma ReceiveKeepsSane(s: System)
    requires Sane(s)
    ensures Sane(Act(s, Receive))
  {
    hide Sound, Balanced;
    var sub, s' := s.bus.subs[s.mine], Act(s, Receive);
    if s.hand.None? && sub.channel != [] {
      TakingKeepsSound(s.bus, s.mine);
      assert sub.channel == [sub.channel[0]] + sub.channel[1..];
      forall n | 0 <= n < |s.runtimes| ensures Balanced(s'.runtimes[n], OfferedTo(s', n)) {
        assert OfferedTo(s', n) == s.taken == OfferedTo(s, n);
      }
    }
  }

  lemma OfferKeepsSane(s: System)
    requires Sane(s)
    ensures Sane(Act(s, Offer))
  {
    hide Sound, Balanced, Fed;
    if s.hand.Some? {
      var (e, k) := s.hand.value;
      var s' := Act(s, Offer);
      assert s.taken == s.taken[..|s.taken| - 1] + [e];
      forall n | 0 <= n < |s.runtimes| ensures Balanced(s'.runtimes[n], OfferedTo(s', n)) {
        if n == k {
          FeedingBalances(s.runtimes[k], OfferedTo(s, k), e, s.size);
        } else {
          assert OfferedTo(s', n) == OfferedTo(s, n);
        }
      }
    }
  }

  lemma WorkKeepsSane(s: System, n: nat, o: Outcome)
    requires Sane(s)
    ensures Sane(Act(s, Begin(n))) && Sane(Act(s, Finish(n, o)))
  {
    hide Sound, Balanced, Begun, Executed;
    if n < |s.runtimes| {
      WorkingBalances(s.runtimes[n], OfferedTo(s, n), o);
      assert forall k :: 0 <= k < |s.runtimes| ==>
        OfferedTo(Act(s, Begin(n)), k) == OfferedTo(s, k) == OfferedTo(Act(s, Finish(n, o)), k);
    }
  }

  lemma ActKeepsSane(s: System, a: Action)
    requires Sane(s)
    ensures Sane(Act(s, a))
  {
    hide Sane, Act;
    match a
    case Receive => ReceiveKeepsSane(s);
    case Offer => OfferKeepsSane(s);
    case Begin(n) => WorkKeepsSane(s, n, Success);
    case Finish(n, o) => WorkKeepsSane(s, n, o);
    case Publish(_) => BusStepsKeepSane(s, a);
    case Subscribe => BusStepsKeepSane(s, a);
    case Unsubscribe(_) => BusStepsKeepSane(s, a);
    case CloseBus => BusStepsKeepSane(s, a);
  }

  lemma ActKeepsRuntimes(s: System, a: Action)
    requires s.mine < |s.bus.subs|
    ensures |Act(s, a).runtimes| == |s.runtimes|
  {
    hide Known, DroppedBy, Fed, Begun, Executed;
    match a {
      case Offer =>
        if s.hand.Some? && s.hand.value.1 < |s.runtimes| {
        }
      case _ =>
    }
  }

  ghost function Run(s: System, actions: seq<Action>): (r: System)
    requires Sane(s)
    ensures Sane(r) && |r.runtimes| == |s.runtimes|
  {
    if actions == [] then s
    else
      var before := Run(s, actions[..|actions| - 1]);
      ActKeepsSane(before, actions[|actions| - 1]);
      ActKeepsRuntimes(before, actions[|actions| - 1]);
      Act(before, actions[|actions| - 1])
  }

  /** The dispatcher subscribes to a sound bus, its extensions idle. */
  lemma StartIsSane(b: Bus, size: nat, extensions: nat)
    requires Sound(b) && !b.closed
    ensures Sane(System(Subscribed(b), |b.subs|, size, [], None, seq(extensions, i => IDLE)))
  {
    SubscribeKeepsSound(b);
  }

  /**
   In every reachable state each extension has handled, in publication order and without repetition, some of the
   distinct events published while the dispatcher was subscribed, and every event is accounted for.
   */
  lemma PipelineAccounts(s: System, actions: seq<Action>, n: nat)
    requires Sane(s) && n < |s.runtimes|
    ensures var e := Run(s, actions);
      |e.runtimes| == |s.runtimes| && e.mine < |e.bus.subs|
    ensures var e := Run(s, actions);
      var r, sub := e.runtimes[n], e.bus.subs[e.mine];
      && sub.since <= (if sub.until.Some? then sub.until.value else |e.bus.published|) <= |e.bus.published|
      && |sub.sent| + sub.dropped == |Window(sub, e.bus.published)|
      && Subsequence(r.handled, Window(sub, e.bus.published)) && Distinct(r.handled)
      && r.received == r.queued + r.dropped
      && r.queued == r.succeeded + r.failed + |r.queue| + |InFlight(r)|
      && e.bus.dropped == DroppedBy(e.bus.subs)
  {
    var e := Run(s, actions);
    HandledInOrder(e, n);
  }

  lemma HandledInOrder(e: System, n: nat)
    requires Sane(e) && n < |e.runtimes|
    ensures var r, sub := e.runtimes[n], e.bus.subs[e.mine];
      && Accounted(sub, e.bus.published)
      && Subsequence(r.handled, Window(sub, e.bus.published)) && Distinct(r.handled)
  {
    var r, sub := e.runtimes[n], e.bus.subs[e.mine];
    var offered, window := OfferedTo(e, n), Window(sub, e.bus.published);
    assert r.accepted[..|r.handled|] == r.handled;
    SubsequencePrefix(r.accepted, offered, |r.handled|);
    assert sub.sent[..|offered|] == offered;
    SubsequencePrefix(sub.sent, window, |offered|);
    SubsequenceTransitive(r.handled, offered, window);
    assert Distinct(window);
    SubsequenceDistinct(r.handled, window);
  }

  /** How extension `n`'s executions have ended so far. */
  ghost function Ends(s: System, actions: seq<Action>, n: nat): multiset<Outcome>
    requires Sane(s) && n < |s.runtimes|
  {
    if actions == [] then multiset{}
    else
      var before, last := actions[..|actions| - 1], actions[|actions| - 1];
      if last.Finish? && last.extension == n && Run(s, before).runtimes[n].running.Some? then
        Ends(s, before, n) + multiset{last.outcome}
      else Ends(s, before, n)
  }

  /** The counters count the executions of each kind. */
  ghost predicate Counts(r: Runtime, ends: multiset<Outcome>) {
    && |r.handled| == |ends| && r.succeeded == ends[Success] && r.failed == |ends| - ends[Success]
    && r.panicked == ends[Panic] && r.timedOut == ends[Timeout]
  }

  lemma ActKeepsCounts(s: System, a: Action, n: nat, ends: multiset<Outcome>)
    requires s.mine < |s.bus.subs| && n < |s.runtimes| && Counts(s.runtimes[n], ends)
    ensures |Act(s, a).runtimes| == |s.runtimes|
    ensures Counts(Act(s, a).runtimes[n],
      if a.Finish? && a.extension == n && s.runtimes[n].running.Some? then ends + multiset{a.outcome} else ends)
  {
    hide Known, DroppedBy;
    ActKeepsRuntimes(s, a);
    match a {
      case Offer =>
      case Begin(k) =>
      case Finish(k, o) =>
      case _ => assert Act(s, a).runtimes == s.runtimes;
    }
  }

  lemma IdleCounts()
    ensures Counts(IDLE, multiset{})
  {
  }

  /** Over every run the four counters of an extension are how often it succeeded, failed, panicked and timed out. */
  lemma {:induction false} CountersCountOutcomes(s: System, actions: seq<Action>, n: nat)
    requires Sane(s) && n < |s.runtimes| && s.runtimes[n] == IDLE
    ensures |Run(s, actions).runtimes| == |s.runtimes|
    ensures Counts(Run(s, actions).runtimes[n], Ends(s, actions, n))
  {
    hide Counts, Act, Sane;
    if actions == [] {
      IdleCounts();
    } else {
      var before, a := actions[..|actions| - 1], actions[|actions| - 1];
      CountersCountOutcomes(s, before, n);
      var b, ends := Run(s, before), Ends(s, before, n);
      SaneHasMine(b);
      ActKeepsCounts(b, a, n, ends);
      assert Run(s, actions) == Act(b, a);
    }
  }

  // ---------------------------------------------------------------- bounds, and when nothing is lost

  /** A channel is never overfull, and events were only dropped after as many were sent as it can hold. */
  predicate Roomy(s: Subscription, buffer: nat) {
    |s.channel| <= buffer && |s.channel| <= |s.sent| && (s.dropped > 0 ==> |s.sent| >= buffer)
  }

  predicate RoomyQueue(r: Runtime, size: nat) {
    |r.queue| <= size && |r.queue| <= |r.accepted| && (r.dropped > 0 ==> |r.accepted| >= size)
  }

  ghost predicate Bounded(s: System) {
    && (forall i | 0 <= i < |s.bus.subs| :: Roomy(s.bus.subs[i], s.bus.buffer))
    && (forall n | 0 <= n < |s.runtimes| :: RoomyQueue(s.runtimes[n], s.size))
  }

  lemma QueuesStayBounded(s: System, a: Action, n: nat)
    requires Bounded(s) && s.mine < |s.bus.subs| && n < |Act(s, a).runtimes|
    ensures RoomyQueue(Act(s, a).runtimes[n], s.size)
  {
    hide Known, DroppedBy;
    ActKeepsRuntimes(s, a);
    assert RoomyQueue(s.runtimes[n], s.size);
    match a {
      case Offer =>
      case Begin(k) =>
      case Finish(k, o) =>
      case _ => assert Act(s, a).runtimes == s.runtimes;
    }
  }

  lemma ChannelsStayBounded(s: System, a: Action, i: nat)
    requires Bounded(s) && s.mine < |s.bus.subs| && i < |Act(s, a).bus.subs|
    ensures Act(s, a).size == s.size && Act(s, a).bus.buffer == s.bus.buffer
    ensures Roomy(Act(s, a).bus.subs[i], s.bus.buffer)
  {
    hide Known, DroppedBy, Fed, Begun, Executed;
    if i < |s.bus.subs| {
      assert Roomy(s.bus.subs[i], s.bus.buffer);
    }
  }

  lemma ActKeepsBounded(s: System, a: Action)
    requires Bounded(s) && s.mine < |s.bus.subs|
    ensures Bounded(Act(s, a)) && Act(s, a).size == s.size && Act(s, a).bus.buffer == s.bus.buffer
  {
    hide Act, Roomy, RoomyQueue;
    ActKeepsMine(s, a);
    ChannelsStayBounded(s, a, s.mine);
    forall i | 0 <= i < |Act(s, a).bus.subs| ensures Roomy(Act(s, a).bus.subs[i], s.bus.buffer) {
      ChannelsStayBounded(s, a, i);
    }
    forall n | 0 <= n < |Act(s, a).runtimes| ensures RoomyQueue(Act(s, a).runtimes[n], s.size) {
      QueuesStayBounded(s, a, n);
    }
  }

  lemma ActKeepsMine(s: System, a: Action)
    requires s.mine < |s.bus.subs|
    ensures s.mine < |Act(s, a).bus.subs|
  {
    hide Known, DroppedBy, Fed, Begun, Executed;
  }

  lemma {:induction false} RunKeepsBounded(s: System, actions: seq<Action>)
    requires Sane(s) && Bounded(s)
    ensures Bounded(Run(s, actions)) && Run(s, actions).size == s.size && Run(s, actions).bus.buffer == s.bus.buffer
  {
    if actions == [] {
    } else {
      hide Bounded, Act, Sane;
      RunKeepsBounded(s, actions[..|actions| - 1]);
      SaneHasMine(Run(s, actions[..|actions| - 1]));
      ActKeepsBounded(Run(s, actions[..|actions| - 1]), actions[|actions| - 1]);
    }
  }

  lemma SaneHasMine(s: System)
    requires Sane(s)
    ensures s.mine < |s.bus.subs|
  {
  }

  /** Nothing on its way: no event in hand, in the channel, in the extension's queue or being handled. */
  predicate Drained(s: System, n: nat)
    requires s.mine < |s.bus.subs| && n < |s.runtimes|
  {
    s.hand.None? && s.bus.subs[s.mine].channel == [] && s.runtimes[n].queue == [] && s.runtimes[n].running.None?
  }

  lemma NothingDroppedBelowCapacity(e: System, n: nat)
    requires Sane(e) && Bounded(e) && n < |e.runtimes|
    ensures var r, sub := e.runtimes[n], e.bus.subs[e.mine];
      && Accounted(sub, e.bus.published)
      && (|Window(sub, e.bus.published)| <= e.bus.buffer ==> sub.dropped == 0)
      && (r.received <= e.size ==> r.dropped == 0)
  {
    assert Accounted(e.bus.subs[e.mine], e.bus.published);
    assert Roomy(e.bus.subs[e.mine], e.bus.buffer) && RoomyQueue(e.runtimes[n], e.size);
  }

  lemma DrainedHasHandled(e: System, n: nat)
    requires Sane(e) && n < |e.runtimes| && Drained(e, n)
    requires e.bus.subs[e.mine].dropped == 0 && e.runtimes[n].dropped == 0
    ensures var sub := e.bus.subs[e.mine];
      Accounted(sub, e.bus.published) && e.runtimes[n].handled == Window(sub, e.bus.published)
  {
    hide Subsequence;
    var r, sub := e.runtimes[n], e.bus.subs[e.mine];
    assert Accounted(sub, e.bus.published);
    SubsequenceLength(sub.sent, Window(sub, e.bus.published));
    assert Balanced(r, OfferedTo(e, n));
    SubsequenceLength(r.accepted, OfferedTo(e, n));
    assert r.accepted == r.handled && sub.sent == e.taken;
  }

  /**
   Over every run channels and queues stay within their sizes, and nothing is lost below capacity: if the events
   published while the dispatcher was subscribed fit its channel and an extension's queue, the extension has handled
   exactly these, in order, once nothing is on its way any more.
   */
  lemma NothingIsLostBelowCapacity(s: System, actions: seq<Action>, n: nat)
    requires Sane(s) && Bounded(s) && n < |s.runtimes|
    ensures var e := Run(s, actions);
      |e.runtimes| == |s.runtimes| && e.mine < |e.bus.subs|
    ensures var e := Run(s, actions);
      var r, sub := e.runtimes[n], e.bus.subs[e.mine];
      && |sub.channel| <= s.bus.buffer && |r.queue| <= s.size && Accounted(sub, e.bus.published)
      && (|Window(sub, e.bus.published)| <= s.bus.buffer && |Window(sub, e.bus.published)| <= s.size && Drained(e, n)
        ==> r.handled == Window(sub, e.bus.published))
  {
    hide Subsequence, Run;
    RunKeepsBounded(s, actions);
    var e := Run(s, actions);
    NothingDroppedBelowCapacity(e, n);
    var r, sub := e.runtimes[n], e.bus.subs[e.mine];
    assert Roomy(sub, e.bus.buffer) && RoomyQueue(r, e.size);
    if |Window(sub, e.bus.published)| <= s.bus.buffer && |Window(sub, e.bus.published)| <= s.size && Drained(e, n) {
      SubsequenceLength(sub.sent, Window(sub, e.bus.published));
      DrainedHasHandled(e, n);
    }
  }

  /** The dispatcher starts bounded on a bus whose other subscriptions are. */
  lemma StartIsBounded(b: Bus, size: nat, extensions: nat)
    requires !b.closed && forall i | 0 <= i < |b.subs| :: Roomy(b.subs[i], b.buffer)
    ensures Bounded(System(Subscribed(b), |b.subs|, size, [], None, seq(extensions, i => IDLE)))
  {
  }
}
