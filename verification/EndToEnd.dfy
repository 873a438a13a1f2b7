/**
 One direction of one link, end to end: SendData on many conns, the batcher, the sealed
 batches on a channel that drops, duplicates and reorders them, the receive loop, and the
 ordered hand-over to each conn (tunnel/mux.go, protocol/batch.go, tunnel/client.go).

 The steps do what the code does on any input. `WithinLimits` says separately what the code
 relies on: a conn carries fewer than 2^32 data frames; payloads are under 2^24 bytes; batches
 are small enough to go out unsplit; data is sent on registered conns; and an ID is registered
 by the sender only while no data has been sent under it. The last is not a matter of course: a
 sending server registers a conn whenever it handles a CONNECT, and CONNECT can arrive twice.
 */
module EndToEnd {
  import opened Bytes
  import opened Frames
  import opened Delivery
  import opened Envelope
  import B = Batcher
  import Fifo = BatcherFifo
  import Splitter

  /** The sending mux: the next number of each registered conn, and (history) what SendData was given. */
  datatype Tx = Tx(sendSeq: map<uint32, uint32>, given: map<uint32, seq<Payload>>)

  /**
   A receiving conn object. `open` is what was put on its channel before it closed; `hand` is
   what deliverOrdered has taken out of the buffer and not yet put on the channel.
   */
  datatype Conn = Conn(id: uint32, recv: Recv, open: seq<Payload>, hand: seq<Payload>, closed: bool)

  /** A conn as RegisterConn makes it. */
  function NewConn(c: uint32): Conn { Conn(c, FRESH, [], [], false) }

  /** The receive loop: frames of the current batch, the conn being handed to, all conns ever made. */
  datatype Rx = Rx(queue: seq<Frame>, busy: Option<nat>, objs: seq<Conn>, reg: map<uint32, nat>)

  datatype State = State(tx: Tx, b: B.State, posted: seq<seq<byte>>, rx: Rx)

  datatype Choice = Enqueued | Stalled | SawClosed

  datatype Event =
    // sender: NewConn on the client, RegisterConn for a handled CONNECT on the server
    | OpenConn(c: uint32) | Connect(c: uint32) | CloseConn(c: uint32)
    | SendData(i: nat, c: uint32, data: Payload, urgent: bool)
    | SendControl(i: nat, f: Frame)
    | Batch(ev: B.Event)
    // channel
    | PostBatch(n: nat, lo: nat, hi: nat, nonce: seq<byte>)
    | Fetch(j: nat)
    // receiver
    | Handle | HandOver(choice: Choice)
    | Register(c: uint32) | Remove(c: uint32) | CloseLocal(o: nat)

  function Init(adders: nat, clock: B.Time): State {
    State(Tx(map[], map[]), B.Init(adders, clock), [], Rx([], None, [], map[]))
  }

  type Given = map<uint32, seq<Payload>>

  /** What was given to SendData on conn c; nothing if the sender never had it. */
  function GivenTo(g: Given, c: uint32): seq<Payload> { if c in g then g[c] else [] }

  /** The frame SendData makes: on an unregistered conn it is numbered 0. */
  function DataFrame(tx: Tx, c: uint32, data: Payload): Frame {
    Frame(TYPE_DATA, c, if c in tx.sendSeq then tx.sendSeq[c] else 0, data)
  }

  function Stamped(tx: Tx, c: uint32, data: Payload): Tx {
    Tx(if c in tx.sendSeq then tx.sendSeq[c := Next(tx.sendSeq[c])] else tx.sendSeq,
       tx.given[c := GivenTo(tx.given, c) + [data]])
  }

  /** A batch goes out whole if it fits the upload limit, in smaller pieces otherwise. */
  predicate FitsWhole(k: Crypto, raw: seq<byte>) {
    |k.encode(raw)| <= Splitter.MAX_COMPRESSED_SIZE
  }

  predicate Shaped(rx: Rx) {
    && (rx.busy.Some? ==> rx.busy.value < |rx.objs|)
    && forall c :: c in rx.reg ==> rx.reg[c] < |rx.objs|
  }

  predicate Enabled(k: Crypto, cfg: B.Config, s: State, ev: Event) {
    match ev
    case OpenConn(c) => c !in s.tx.sendSeq
    case Connect(c) => true
    case CloseConn(c) => true
    case SendData(i, c, data, urgent) => B.Enabled(cfg, s.b, B.Begin(i, B.Entry(DataFrame(s.tx, c, data), urgent)))
    case SendControl(i, f) => f.typ != TYPE_DATA && B.Enabled(cfg, s.b, B.Begin(i, B.Entry(f, true)))
    case Batch(e) => !e.Begin? && B.Enabled(cfg, s.b, e)
    case PostBatch(n, lo, hi, nonce) =>
      && n < |s.b.store.batches| && n < |s.b.ledger.jobs| && s.b.ledger.jobs[n].phase.Sending?
      && |nonce| == NONCE_LEN
      && var raw := s.b.store.batches[n].raw;
         && lo <= hi <= |raw| && FitsWhole(k, raw[lo..hi])
         && (FitsWhole(k, raw) ==> lo == 0 && hi == |raw|)
    case Fetch(j) => Shaped(s.rx) && s.rx.queue == [] && s.rx.busy.None? && j < |s.posted|
    case Handle => Shaped(s.rx) && s.rx.queue != [] && s.rx.busy.None?
    case HandOver(choice) =>
      && Shaped(s.rx) && s.rx.busy.Some? && s.rx.objs[s.rx.busy.value].hand != []
      && (choice.SawClosed? ==> s.rx.objs[s.rx.busy.value].closed)
    case Register(c) => Shaped(s.rx)
    case Remove(c) => Shaped(s.rx)
    case CloseLocal(o) => Shaped(s.rx) && o < |s.rx.objs|
  }

  /** What the code relies on; on an unregistered conn only a first payload is numbered rightly. */
  predicate WithinLimits(k: Crypto, s: State, ev: Event) {
    match ev
    case OpenConn(c) => GivenTo(s.tx.given, c) == []
    case Connect(c) => GivenTo(s.tx.given, c) == []
    case SendData(i, c, data, urgent) =>
      && (c in s.tx.sendSeq || (GivenTo(s.tx.given, c) + [data])[0] == data)
      && |GivenTo(s.tx.given, c)| + 1 < SEQ_RANGE && |data| < PAYLOAD_LIMIT
    case SendControl(i, f) => |f.payload| < PAYLOAD_LIMIT
    case PostBatch(n, lo, hi, nonce) => n < |s.b.store.batches| && FitsWhole(k, s.b.store.batches[n].raw)
    case _ => true
  }

  /** DecompressBatch of one fetched message: its frames, or nothing. */
  function Fetched(k: Crypto, data: seq<byte>): seq<Frame> {
    match Unblob(k, data)
    case None => []
    case Some(raw) =>
      match DecodeAll(raw)
      case Err(_) => []
      case Ok(fs) => fs
  }

  /** deliverOrdered's critical section on a conn. */
  function Taken(c: Conn, f: Frame): Conn {
    var (r, out) := Deliver(c.recv, f.seqNum, f.payload);
    c.(recv := r, hand := out)
  }

  /** One select of the hand-over loop. Closing, or finding the conn closed, drops the rest. */
  function Handed(c: Conn, choice: Choice): Conn
    requires c.hand != []
  {
    match choice
    case Enqueued => c.(hand := c.hand[1..], open := if c.closed then c.open else c.open + [c.hand[0]])
    case Stalled => c.(hand := [], closed := true)
    case SawClosed => c.(hand := [])
  }

  function HandleFrame(rx: Rx): Rx
    requires Shaped(rx) && rx.queue != []
  {
    var f, rest := rx.queue[0], rx.queue[1..];
    if f.connId !in rx.reg then rx.(queue := rest)
    else
      var o := rx.reg[f.connId];
      if f.typ == TYPE_DATA then
        var c := Taken(rx.objs[o], f);
        rx.(queue := rest, objs := rx.objs[o := c], busy := if c.hand == [] then None else Some(o))
      else if f.typ == TYPE_CLOSE || f.typ == TYPE_RESET then
        rx.(queue := rest, objs := rx.objs[o := rx.objs[o].(closed := true)])
      else rx.(queue := rest)
  }

  function Apply(k: Crypto, cfg: B.Config, s: State, ev: Event): State
    requires Enabled(k, cfg, s, ev)
  {
    match ev
    case OpenConn(c) =>
      s.(tx := Tx(s.tx.sendSeq[c := 0], s.tx.given[c := []]))
    case Connect(c) => s.(tx := s.tx.(sendSeq := s.tx.sendSeq[c := 0]))
    case CloseConn(c) => s.(tx := s.tx.(sendSeq := s.tx.sendSeq - {c}))
    case SendData(i, c, data, urgent) =>
      s.(tx := Stamped(s.tx, c, data),
         b := B.Apply(cfg, s.b, B.Begin(i, B.Entry(DataFrame(s.tx, c, data), urgent))))
    case SendControl(i, f) => s.(b := B.Apply(cfg, s.b, B.Begin(i, B.Entry(f, true))))
    case Batch(e) => s.(b := B.Apply(cfg, s.b, e))
    case PostBatch(n, lo, hi, nonce) => s.(posted := s.posted + [Blob(k, nonce, s.b.store.batches[n].raw[lo..hi])])
    case Fetch(j) => s.(rx := s.rx.(queue := Fetched(k, s.posted[j])))
    case Handle => s.(rx := HandleFrame(s.rx))
    case HandOver(choice) =>
      var o := s.rx.busy.value;
      var c := Handed(s.rx.objs[o], choice);
      s.(rx := s.rx.(objs := s.rx.objs[o := c], busy := if c.hand == [] then None else Some(o)))
    case Register(c) =>
      s.(rx := s.rx.(objs := s.rx.objs + [NewConn(c)], reg := s.rx.reg[c := |s.rx.objs|]))
    case Remove(c) =>
      if c in s.rx.reg then
        var o := s.rx.reg[c];
        s.(rx := s.rx.(objs := s.rx.objs[o := s.rx.objs[o].(closed := true)], reg := s.rx.reg - {c}))
      else s
    case CloseLocal(o) => s.(rx := s.rx.(objs := s.rx.objs[o := s.rx.objs[o].(closed := true)]))
  }

  function Exec(k: Crypto, cfg: B.Config, adders: nat, clock: B.Time, evs: seq<Event>): Option<State> {
    if evs == [] then Some(Init(adders, clock))
    else match Exec(k, cfg, adders, clock, evs[..|evs| - 1])
      case None => None
      case Some(p) => if Enabled(k, cfg, p, evs[|evs| - 1]) then Some(Apply(k, cfg, p, evs[|evs| - 1])) else None
  }

  datatype Setup = Setup(k: Crypto, cfg: B.Config, adders: nat, clock: B.Time)

  ghost predicate Runs(w: Setup, evs: seq<Event>, s: State) {
    Exec(w.k, w.cfg, w.adders, w.clock, evs) == Some(s)
  }

  predicate StepWithin(k: Crypto, cfg: B.Config, adders: nat, clock: B.Time, evs: seq<Event>, i: nat)
    requires i < |evs|
  {
    match Exec(k, cfg, adders, clock, evs[..i])
    case None => false
    case Some(p) => WithinLimits(k, p, evs[i])
  }

  /** A run every step of which stays within the limits. */
  ghost predicate Careful(k: Crypto, cfg: B.Config, adders: nat, clock: B.Time, evs: seq<Event>) {
    forall i :: 0 <= i < |evs| ==> StepWithin(k, cfg, adders, clock, evs, i)
  }

  // ---------------------------------------------------------------- the invariant

  /**
   IDs whose numbering has gone wrong: under those in `all` any data frame may travel, under those
   in `first` one numbered 0 with the wrong payload. Within the limits both are empty.
   */
  datatype Spoilt = Spoilt(all: set<uint32>, first: set<uint32>)

  const NONE := Spoilt({}, {})

  ghost predicate Numbered(tx: Tx, x: Spoilt) {
    && (forall c :: c in tx.given ==> |tx.given[c]| < SEQ_RANGE)
    && (forall c :: c in tx.sendSeq && c !in x.all ==> tx.sendSeq[c] == |GivenTo(tx.given, c)|)
    && (forall c :: c in x.first ==> c !in tx.sendSeq)
    && (forall c :: c in x.all || c in x.first ==> GivenTo(tx.given, c) != [])
  }

  /** A data frame that carries the payload given under its number. */
  ghost predicate Right(f: Frame, g: Given) {
    f.seqNum < |GivenTo(g, f.connId)| && GivenTo(g, f.connId)[f.seqNum] == f.payload
  }

  /** A frame that may travel. */
  ghost predicate Good(f: Frame, g: Given, x: Spoilt) {
    && |f.payload| < PAYLOAD_LIMIT
    && (f.typ == TYPE_DATA ==> Right(f, g) || f.connId in x.all || (f.connId in x.first && f.seqNum == 0))
  }

  ghost predicate GoodAdder(a: B.Adder, g: Given, x: Spoilt) {
    match a
    case Asking(e) => Good(e.frame, g, x)
    case Loaded(e, _) => Good(e.frame, g, x)
    case Admitted(e) => Good(e.frame, g, x)
    case _ => true
  }

  ghost predicate AllGood(b: B.State, g: Given, x: Spoilt) {
    && (forall i :: 0 <= i < |b.store.written| ==> Good(b.store.written[i].frame, g, x))
    && (forall i :: 0 <= i < |b.adders| ==> GoodAdder(b.adders[i], g, x))
  }

  ghost predicate FromBatch(k: Crypto, blob: seq<byte>, batches: seq<B.Batch>) {
    exists n, nonce :: 0 <= n < |batches| && |nonce| == NONCE_LEN && blob == Blob(k, nonce, batches[n].raw)
  }

  ghost predicate AllPosted(k: Crypto, posted: seq<seq<byte>>, batches: seq<B.Batch>) {
    forall j :: 0 <= j < |posted| ==> FromBatch(k, posted[j], batches)
  }

  ghost predicate GoodQueue(queue: seq<Frame>, g: Given, x: Spoilt) {
    forall i :: 0 <= i < |queue| ==> Good(queue[i], g, x)
  }

  /** The conn agrees with the sender, and until it closes nothing taken is missing. */
  ghost predicate GoodConn(c: Conn, g: Given) {
    var sent := GivenTo(g, c.id);
    && |sent| < SEQ_RANGE && Agrees(c.recv, sent) && c.recv.expected !in c.recv.pending
    && (!c.closed ==> c.open + c.hand == sent[..c.recv.expected])
    && c.open <= sent
  }

  /** A conn that no frame can reach any more, or that enqueues nothing because it is closed. */
  ghost predicate DeadConn(c: Conn, registered: bool, g: Given) {
    c.open <= GivenTo(g, c.id) && (c.closed || (!registered && c.open + c.hand <= GivenTo(g, c.id)))
  }

  predicate IsRegistered(rx: Rx, o: nat) requires o < |rx.objs| {
    rx.objs[o].id in rx.reg && rx.reg[rx.objs[o].id] == o
  }

  /** Under a spoilt ID a conn is dead, or past the number that is spoilt. */
  ghost predicate ConnOK(c: Conn, registered: bool, g: Given, x: Spoilt) {
    || (GoodConn(c, g) && c.id !in x.all && (c.id in x.first ==> c.recv.expected > 0))
    || (DeadConn(c, registered, g) && (c.id in x.all || c.id in x.first))
  }

  ghost predicate GoodRx(rx: Rx, g: Given, x: Spoilt) {
    && Shaped(rx)
    && GoodQueue(rx.queue, g, x)
    && (forall o :: 0 <= o < |rx.objs| ==> ConnOK(rx.objs[o], IsRegistered(rx, o), g, x))
    && (forall o :: 0 <= o < |rx.objs| ==> (rx.objs[o].hand != [] <==> rx.busy == Some(o)))
    && (forall c :: c in rx.reg ==> rx.objs[rx.reg[c]].id == c)
  }

  ghost predicate Inv(k: Crypto, s: State, x: Spoilt) {
    && Numbered(s.tx, x) && AllGood(s.b, s.tx.given, x) && Fifo.Inv(s.b)
    && AllPosted(k, s.posted, s.b.store.batches) && GoodRx(s.rx, s.tx.given, x)
  }

  // ---------------------------------------------------------------- the given payloads only grow

  ghost predicate Grows(g: Given, h: Given) {
    && (forall c :: GivenTo(g, c) <= GivenTo(h, c))
    && (forall c :: |GivenTo(h, c)| < SEQ_RANGE)
  }

  lemma GoodGrows(f: Frame, g: Given, h: Given, x: Spoilt)
    requires Good(f, g, x) && Grows(g, h)
    ensures Good(f, h, x)
  {
    assert GivenTo(g, f.connId) <= GivenTo(h, f.connId);
  }

  lemma GoodConnGrows(c: Conn, g: Given, h: Given)
    requires GoodConn(c, g) && Grows(g, h)
    ensures GoodConn(c, h)
  {
    var s, t := GivenTo(g, c.id), GivenTo(h, c.id);
    assert s <= t;
    AgreesGrows(c.recv, s, t);
    assert t[..c.recv.expected] == s[..c.recv.expected];
  }

  lemma ConnOKGrows(c: Conn, registered: bool, g: Given, h: Given, x: Spoilt)
    requires ConnOK(c, registered, g, x) && Grows(g, h)
    ensures ConnOK(c, registered, h, x)
  {
    if GoodConn(c, g) {
      GoodConnGrows(c, g, h);
    }
    assert GivenTo(g, c.id) <= GivenTo(h, c.id);
  }

  lemma AllGoodGrows(b: B.State, g: Given, h: Given, x: Spoilt)
    requires AllGood(b, g, x) && Grows(g, h)
    ensures AllGood(b, h, x)
  {
    forall i | 0 <= i < |b.store.written| ensures Good(b.store.written[i].frame, h, x) {
      GoodGrows(b.store.written[i].frame, g, h, x);
    }
    forall i | 0 <= i < |b.adders| ensures GoodAdder(b.adders[i], h, x) {
      assert GoodAdder(b.adders[i], g, x);
      if b.adders[i].Asking? || b.adders[i].Loaded? || b.adders[i].Admitted? {
        GoodGrows(b.adders[i].e.frame, g, h, x);
      }
    }
  }

  lemma GoodRxGrows(rx: Rx, g: Given, h: Given, x: Spoilt)
    requires GoodRx(rx, g, x) && Grows(g, h)
    ensures GoodRx(rx, h, x)
  {
    forall i | 0 <= i < |rx.queue| ensures Good(rx.queue[i], h, x) {
      GoodGrows(rx.queue[i], g, h, x);
    }
    forall o | 0 <= o < |rx.objs| ensures ConnOK(rx.objs[o], IsRegistered(rx, o), h, x) {
      ConnOKGrows(rx.objs[o], IsRegistered(rx, o), g, h, x);
    }
  }

  // ---------------------------------------------------------------- sender steps

  lemma StampNumbers(tx: Tx, c: uint32, data: Payload, x: Spoilt)
    requires Numbered(tx, x) && |GivenTo(tx.given, c)| + 1 < SEQ_RANGE && |data| < PAYLOAD_LIMIT
    requires c in tx.sendSeq || (GivenTo(tx.given, c) + [data])[0] == data || c in x.first
    ensures Numbered(Stamped(tx, c, data), x) && Grows(tx.given, Stamped(tx, c, data).given)
    ensures Good(DataFrame(tx, c, data), Stamped(tx, c, data).given, x)
  {
    var h := Stamped(tx, c, data).given;
    assert h[c][|GivenTo(tx.given, c)|] == data;
  }

  /** Registering an ID under which nothing was given. */
  lemma OpenNumbers(tx: Tx, c: uint32, x: Spoilt)
    requires Numbered(tx, x) && GivenTo(tx.given, c) == []
    ensures var t := Tx(tx.sendSeq[c := 0], tx.given[c := []]); Numbered(t, x) && Grows(tx.given, t.given)
    ensures Numbered(tx.(sendSeq := tx.sendSeq[c := 0]), x)
  {}

  /** The batcher neither makes up frames nor forgets batches. */
  lemma BatcherKeeps(cfg: B.Config, b: B.State, e: B.Event, g: Given, x: Spoilt)
    requires AllGood(b, g, x) && B.Enabled(cfg, b, e) && (e.Begin? ==> Good(e.e.frame, g, x))
    ensures AllGood(B.Apply(cfg, b, e), g, x)
    ensures b.store.batches <= B.Apply(cfg, b, e).store.batches
  {
    var t := B.Apply(cfg, b, e);
    if e.Write? {
      assert GoodAdder(b.adders[e.i], g, x);
    } else {
      assert t.store.written == b.store.written;
    }
    forall i | 0 <= i < |t.adders| ensures GoodAdder(t.adders[i], g, x) {
      assert GoodAdder(b.adders[i], g, x);
    }
  }

  lemma PostedStays(k: Crypto, posted: seq<seq<byte>>, a: seq<B.Batch>, b: seq<B.Batch>)
    requires AllPosted(k, posted, a) && a <= b
    ensures AllPosted(k, posted, b)
  {
    forall j | 0 <= j < |posted| ensures FromBatch(k, posted[j], b) {
      assert FromBatch(k, posted[j], a);
      var n, nonce :| 0 <= n < |a| && |nonce| == NONCE_LEN && posted[j] == Blob(k, nonce, a[n].raw);
      assert b[n] == a[n];
    }
  }

  /** Within the limits, or a send that can only spoil what is spoilt already. */
  predicate Allowed(k: Crypto, s: State, ev: Event, x: Spoilt) {
    || WithinLimits(k, s, ev)
    || (ev.SendData? && ev.c in x.first && |GivenTo(s.tx.given, ev.c)| + 1 < SEQ_RANGE && |ev.data| < PAYLOAD_LIMIT)
  }

  lemma SenderStep(k: Crypto, cfg: B.Config, s: State, ev: Event, x: Spoilt)
    requires Inv(k, s, x) && Enabled(k, cfg, s, ev)
    requires Allowed(k, s, ev, x) && (ev.SendData? || ev.SendControl? || ev.Batch?)
    ensures Inv(k, Apply(k, cfg, s, ev), x)
  {
    var e := if ev.SendData? then B.Begin(ev.i, B.Entry(DataFrame(s.tx, ev.c, ev.data), ev.urgent))
             else if ev.SendControl? then B.Begin(ev.i, B.Entry(ev.f, true)) else ev.ev;
    var g := s.tx.given;
    var h := if ev.SendData? then Stamped(s.tx, ev.c, ev.data).given else g;
    if ev.SendData? {
      StampNumbers(s.tx, ev.c, ev.data, x);
      AllGoodGrows(s.b, g, h, x);
      GoodRxGrows(s.rx, g, h, x);
    }
    BatcherKeeps(cfg, s.b, e, h, x);
    Fifo.StepInv(cfg, s.b, e);
    PostedStays(k, s.posted, s.b.store.batches, B.Apply(cfg, s.b, e).store.batches);
  }

  lemma OpenStep(k: Crypto, cfg: B.Config, s: State, c: uint32, x: Spoilt)
    requires Inv(k, s, x) && GivenTo(s.tx.given, c) == [] && Enabled(k, cfg, s, OpenConn(c))
    ensures Inv(k, Apply(k, cfg, s, OpenConn(c)), x)
  {
    OpenNumbers(s.tx, c, x);
    AllGoodGrows(s.b, s.tx.given, s.tx.given[c := []], x);
    GoodRxGrows(s.rx, s.tx.given, s.tx.given[c := []], x);
  }

  lemma PostStep(k: Crypto, cfg: B.Config, s: State, ev: Event, x: Spoilt)
    requires Inv(k, s, x) && ev.PostBatch? && Enabled(k, cfg, s, ev) && WithinLimits(k, s, ev)
    ensures AllPosted(k, Apply(k, cfg, s, ev).posted, s.b.store.batches)
  {
    var raw := s.b.store.batches[ev.n].raw;
    assert raw[0..|raw|] == raw;
    assert FromBatch(k, Blob(k, ev.nonce, raw), s.b.store.batches);
  }

  // ---------------------------------------------------------------- receiver steps

  /** What is posted decodes to one batch's block of the written frames. */
  lemma PostedDecodes(k: Crypto, st: B.Store, blob: seq<byte>) returns (n: nat)
    requires Sound(k) && Fifo.Queue(st) && FromBatch(k, blob, st.batches)
    requires forall i :: 0 <= i < |st.written| ==> |st.written[i].frame.payload| < PAYLOAD_LIMIT
    ensures n < |st.batches| && st.batches[n].lo < st.batches[n].hi <= |st.written|
    ensures Fetched(k, blob) == B.FramesOf(st.written[st.batches[n].lo..st.batches[n].hi])
  {
    var i, nonce :| 0 <= i < |st.batches| && |nonce| == NONCE_LEN && blob == Blob(k, nonce, st.batches[i].raw);
    UnblobBlob(k, nonce, st.batches[i].raw);
    Fifo.BatchDecodes(st, i);
    n := i;
  }

  /** A fetched batch decodes to frames the sender really wrote. */
  lemma FetchedGood(k: Crypto, st: B.Store, blob: seq<byte>, g: Given, x: Spoilt)
    requires Sound(k) && Fifo.Queue(st) && FromBatch(k, blob, st.batches)
    requires forall i :: 0 <= i < |st.written| ==> Good(st.written[i].frame, g, x)
    ensures GoodQueue(Fetched(k, blob), g, x)
  {
    forall i | 0 <= i < |st.written| ensures |st.written[i].frame.payload| < PAYLOAD_LIMIT {
      assert Good(st.written[i].frame, g, x);
    }
    var n := PostedDecodes(k, st, blob);
    BlockGood(st.written, st.batches[n].lo, st.batches[n].hi, g, x);
  }

  lemma FetchStep(k: Crypto, s: State, j: nat, x: Spoilt)
    requires Sound(k) && Inv(k, s, x) && j < |s.posted|
    ensures GoodQueue(Fetched(k, s.posted[j]), s.tx.given, x)
  {
    assert FromBatch(k, s.posted[j], s.b.store.batches);
    FetchedGood(k, s.b.store, s.posted[j], s.tx.given, x);
  }

  lemma FetchedRx(k: Crypto, s: State, j: nat, x: Spoilt)
    requires Sound(k) && Inv(k, s, x) && j < |s.posted|
    ensures GoodRx(s.rx.(queue := Fetched(k, s.posted[j])), s.tx.given, x)
  {
    FetchStep(k, s, j, x);
    var t := s.rx.(queue := Fetched(k, s.posted[j]));
    assert forall o :: 0 <= o < |t.objs| ==> IsRegistered(t, o) == IsRegistered(s.rx, o);
  }

  lemma BlockGood(written: seq<B.Entry>, lo: nat, hi: nat, g: Given, x: Spoilt)
    requires lo <= hi <= |written| && forall i :: 0 <= i < |written| ==> Good(written[i].frame, g, x)
    ensures GoodQueue(B.FramesOf(written[lo..hi]), g, x)
  {
    var fs := B.FramesOf(written[lo..hi]);
    forall i | 0 <= i < |fs| ensures Good(fs[i], g, x) {
      assert fs[i] == written[lo + i].frame;
    }
  }

  lemma TakenGood(c: Conn, f: Frame, g: Given)
    requires GoodConn(c, g) && c.hand == [] && Right(f, g) && f.connId == c.id
    ensures GoodConn(Taken(c, f), g) && c.recv.expected <= Taken(c, f).recv.expected
  {
    var sent := GivenTo(g, c.id);
    DeliverAgrees(c.recv, f.seqNum, sent);
    var (r, out) := Deliver(c.recv, f.seqNum, f.payload);
    if !c.closed {
      assert c.open + [] == c.open;
      assert sent[..c.recv.expected] + sent[c.recv.expected..r.expected] == sent[..r.expected];
    }
  }

  /** A frame numbered 0 does nothing to a conn that is past it. */
  lemma TakenStale(c: Conn, f: Frame, g: Given)
    requires GoodConn(c, g) && c.hand == [] && f.seqNum == 0 && c.recv.expected > 0
    ensures GoodConn(Taken(c, f), g) && Taken(c, f).recv == c.recv
  {}

  lemma TakenOK(c: Conn, f: Frame, g: Given, x: Spoilt)
    requires ConnOK(c, true, g, x) && c.hand == [] && Good(f, g, x) && f.typ == TYPE_DATA && f.connId == c.id
    ensures ConnOK(Taken(c, f), true, g, x)
  {
    if GoodConn(c, g) && c.id !in x.all && (c.id in x.first ==> c.recv.expected > 0) {
      if Right(f, g) {
        TakenGood(c, f, g);
      } else {
        TakenStale(c, f, g);
      }
    }
  }

  lemma HandedGood(c: Conn, choice: Choice, g: Given)
    requires GoodConn(c, g) && c.hand != [] && (choice.SawClosed? ==> c.closed)
    ensures GoodConn(Handed(c, choice), g)
  {
    if choice.Enqueued? && !c.closed {
      assert c.open + c.hand == (c.open + [c.hand[0]]) + c.hand[1..];
      assert c.open + [c.hand[0]] <= c.open + c.hand;
    }
  }

  lemma HandedOK(c: Conn, registered: bool, choice: Choice, g: Given, x: Spoilt)
    requires ConnOK(c, registered, g, x) && c.hand != [] && (choice.SawClosed? ==> c.closed)
    ensures ConnOK(Handed(c, choice), registered, g, x)
  {
    if GoodConn(c, g) {
      HandedGood(c, choice, g);
    }
    if choice.Enqueued? && !c.closed {
      assert c.open + c.hand == (c.open + [c.hand[0]]) + c.hand[1..];
      assert c.open + [c.hand[0]] <= c.open + c.hand;
    }
  }

  /** Replacing one conn object, with the loop's position following what is in hand. */
  lemma ReplaceConn(rx: Rx, o: nat, c: Conn, g: Given, x: Spoilt)
    requires GoodRx(rx, g, x) && o < |rx.objs| && (rx.busy.None? || rx.busy == Some(o))
    requires ConnOK(c, IsRegistered(rx, o), g, x) && c.id == rx.objs[o].id
    ensures GoodRx(rx.(objs := rx.objs[o := c], busy := if c.hand == [] then None else Some(o)), g, x)
  {
    var objs := rx.objs[o := c];
    forall y | 0 <= y < |objs| && y != o ensures objs[y] == rx.objs[y] && objs[y].hand == [] {}
  }

  lemma CloseConnObject(rx: Rx, o: nat, g: Given, x: Spoilt)
    requires GoodRx(rx, g, x) && o < |rx.objs|
    ensures GoodRx(rx.(objs := rx.objs[o := rx.objs[o].(closed := true)]), g, x)
  {
    var c := rx.objs[o].(closed := true);
    assert ConnOK(rx.objs[o], IsRegistered(rx, o), g, x);
    assert ConnOK(c, IsRegistered(rx, o), g, x);
    var objs := rx.objs[o := c];
    forall y | 0 <= y < |objs| ensures objs[y].hand == rx.objs[y].hand && objs[y].id == rx.objs[y].id {}
  }

  lemma NextInQueue(rx: Rx, g: Given, x: Spoilt)
    requires GoodRx(rx, g, x) && rx.queue != []
    ensures Good(rx.queue[0], g, x) && GoodRx(rx.(queue := rx.queue[1..]), g, x)
  {
    assert GoodQueue(rx.queue[1..], g, x);
    var rest := rx.(queue := rx.queue[1..]);
    assert forall o :: 0 <= o < |rx.objs| ==> IsRegistered(rest, o) == IsRegistered(rx, o);
  }

  lemma HandleStep(rx: Rx, g: Given, x: Spoilt)
    requires GoodRx(rx, g, x) && rx.queue != [] && rx.busy.None?
    ensures GoodRx(HandleFrame(rx), g, x)
  {
    var f, rest := rx.queue[0], rx.(queue := rx.queue[1..]);
    NextInQueue(rx, g, x);
    if f.connId in rx.reg {
      var o := rx.reg[f.connId];
      assert IsRegistered(rest, o);
      if f.typ == TYPE_DATA {
        TakenOK(rest.objs[o], f, g, x);
        ReplaceConn(rest, o, Taken(rest.objs[o], f), g, x);
      } else if f.typ == TYPE_CLOSE || f.typ == TYPE_RESET {
        CloseConnObject(rest, o, g, x);
      }
    }
  }

  lemma HandOverStep(rx: Rx, choice: Choice, g: Given, x: Spoilt)
    requires GoodRx(rx, g, x) && rx.busy.Some? && rx.objs[rx.busy.value].hand != []
    requires choice.SawClosed? ==> rx.objs[rx.busy.value].closed
    ensures var o := rx.busy.value; var c := Handed(rx.objs[o], choice);
      GoodRx(rx.(objs := rx.objs[o := c], busy := if c.hand == [] then None else Some(o)), g, x)
  {
    var o := rx.busy.value;
    HandedOK(rx.objs[o], IsRegistered(rx, o), choice, g, x);
    ReplaceConn(rx, o, Handed(rx.objs[o], choice), g, x);
  }

  /** A conn that is no longer the registered one is as it was. */
  lemma UnregisteredOK(c: Conn, registered: bool, g: Given, x: Spoilt)
    requires ConnOK(c, registered, g, x)
    ensures ConnOK(c, false, g, x)
  {}

  lemma RegisterStep(rx: Rx, c: uint32, g: Given, x: Spoilt)
    requires GoodRx(rx, g, x) && |GivenTo(g, c)| < SEQ_RANGE && c !in x.all && c !in x.first
    ensures GoodRx(rx.(objs := rx.objs + [NewConn(c)], reg := rx.reg[c := |rx.objs|]), g, x)
  {
    var t := rx.(objs := rx.objs + [NewConn(c)], reg := rx.reg[c := |rx.objs|]);
    assert GoodConn(NewConn(c), g);
    forall o | 0 <= o < |t.objs| ensures ConnOK(t.objs[o], IsRegistered(t, o), g, x) {
      if o < |rx.objs| {
        UnregisteredOK(rx.objs[o], IsRegistered(rx, o), g, x);
        assert ConnOK(rx.objs[o], IsRegistered(rx, o), g, x);
        assert IsRegistered(t, o) ==> IsRegistered(rx, o);
      }
    }
  }

  lemma UnmapStep(rx: Rx, c: uint32, g: Given, x: Spoilt)
    requires GoodRx(rx, g, x)
    ensures GoodRx(rx.(reg := rx.reg - {c}), g, x)
  {
    var t := rx.(reg := rx.reg - {c});
    forall o | 0 <= o < |t.objs| ensures ConnOK(t.objs[o], IsRegistered(t, o), g, x) {
      assert ConnOK(rx.objs[o], IsRegistered(rx, o), g, x);
      UnregisteredOK(rx.objs[o], IsRegistered(rx, o), g, x);
      assert IsRegistered(t, o) ==> IsRegistered(rx, o);
    }
  }

  lemma RemoveStep(rx: Rx, c: uint32, g: Given, x: Spoilt)
    requires GoodRx(rx, g, x) && c in rx.reg
    ensures var o := rx.reg[c];
      GoodRx(rx.(objs := rx.objs[o := rx.objs[o].(closed := true)], reg := rx.reg - {c}), g, x)
  {
    CloseConnObject(rx, rx.reg[c], g, x);
    UnmapStep(rx.(objs := rx.objs[rx.reg[c] := rx.objs[rx.reg[c]].(closed := true)]), c, g, x);
  }

  /** The step does not make a new receiving conn under a spoilt ID. */
  predicate Avoids(ev: Event, x: Spoilt) {
    ev.Register? ==> ev.c !in x.all && ev.c !in x.first
  }

  lemma StepInv(k: Crypto, cfg: B.Config, s: State, ev: Event, x: Spoilt)
    requires Sound(k) && Inv(k, s, x) && Enabled(k, cfg, s, ev) && WithinLimits(k, s, ev) && Avoids(ev, x)
    ensures Inv(k, Apply(k, cfg, s, ev), x)
  {
    var g := s.tx.given;
    match ev
    case OpenConn(c) => OpenStep(k, cfg, s, c, x);
    case Connect(c) => OpenNumbers(s.tx, c, x);
    case CloseConn(_) =>
    case SendData(_, _, _, _) => SenderStep(k, cfg, s, ev, x);
    case SendControl(_, _) => SenderStep(k, cfg, s, ev, x);
    case Batch(_) => SenderStep(k, cfg, s, ev, x);
    case PostBatch(_, _, _, _) => PostStep(k, cfg, s, ev, x);
    case Fetch(j) => FetchedRx(k, s, j, x);
    case Handle => HandleStep(s.rx, g, x);
    case HandOver(choice) => HandOverStep(s.rx, choice, g, x);
    case Register(c) => RegisterStep(s.rx, c, g, x);
    case Remove(c) => if c in s.rx.reg { RemoveStep(s.rx, c, g, x); }
    case CloseLocal(o) => CloseConnObject(s.rx, o, g, x);
  }

  lemma CarefulFront(k: Crypto, cfg: B.Config, adders: nat, clock: B.Time, evs: seq<Event>)
    requires evs != [] && Careful(k, cfg, adders, clock, evs)
    ensures Careful(k, cfg, adders, clock, evs[..|evs| - 1])
  {
    var front := evs[..|evs| - 1];
    forall i | 0 <= i < |front| ensures StepWithin(k, cfg, adders, clock, front, i) {
      assert StepWithin(k, cfg, adders, clock, evs, i);
      assert front[..i] == evs[..i];
    }
  }

  lemma {:induction false} ReachInv(k: Crypto, cfg: B.Config, adders: nat, clock: B.Time, evs: seq<Event>, s: State)
    requires Sound(k) && Exec(k, cfg, adders, clock, evs) == Some(s) && Careful(k, cfg, adders, clock, evs)
    ensures Inv(k, s, NONE)
  {
    if evs != [] {
      var p := Exec(k, cfg, adders, clock, evs[..|evs| - 1]).value;
      CarefulFront(k, cfg, adders, clock, evs);
      ReachInv(k, cfg, adders, clock, evs[..|evs| - 1], p);
      assert StepWithin(k, cfg, adders, clock, evs, |evs| - 1);
      StepInv(k, cfg, p, evs[|evs| - 1], NONE);
    } else {
      Fifo.InitInv(adders, clock);
    }
  }

  // ---------------------------------------------------------------- the theorem

  function Joined(payloads: seq<Payload>): seq<byte> {
    if payloads == [] then [] else payloads[0] + Joined(payloads[1..])
  }

  lemma {:induction false} JoinedPrefix(a: seq<Payload>, b: seq<Payload>)
    requires a <= b
    ensures Joined(a) <= Joined(b)
  {
    if a != [] {
      JoinedPrefix(a[1..], b[1..]);
    }
  }

  /** What every conn object enqueued before it closed is a prefix of what was given under its ID. */
  ghost predicate Safe(s: State) {
    forall o :: 0 <= o < |s.rx.objs| ==> s.rx.objs[o].open <= GivenTo(s.tx.given, s.rx.objs[o].id)
  }

  /**
   End-to-end prefix safety. In every run within the limits, whatever the channel drops, repeats
   or reorders and however the goroutines interleave: what any receiving conn object enqueued
   before it closed is a prefix of what was given to SendData on the peer conn, payload by
   payload and byte by byte.
   */
  lemma PrefixSafety(k: Crypto, cfg: B.Config, adders: nat, clock: B.Time, evs: seq<Event>, s: State)
    requires Sound(k) && Exec(k, cfg, adders, clock, evs) == Some(s) && Careful(k, cfg, adders, clock, evs)
    ensures Safe(s)
    ensures forall o :: 0 <= o < |s.rx.objs| ==>
      Joined(s.rx.objs[o].open) <= Joined(GivenTo(s.tx.given, s.rx.objs[o].id))
  {
    ReachInv(k, cfg, adders, clock, evs, s);
    forall o | 0 <= o < |s.rx.objs|
      ensures s.rx.objs[o].open <= GivenTo(s.tx.given, s.rx.objs[o].id)
      ensures Joined(s.rx.objs[o].open) <= Joined(GivenTo(s.tx.given, s.rx.objs[o].id))
    {
      assert ConnOK(s.rx.objs[o], IsRegistered(s.rx, o), s.tx.given, NONE);
      JoinedPrefix(s.rx.objs[o].open, GivenTo(s.tx.given, s.rx.objs[o].id));
    }
  }

  // ---------------------------------------------------------------- one registration per ID

  predicate Registers(ev: Event, c: uint32) { ev == OpenConn(c) || ev == Connect(c) }

  /** All steps but registrations are within the limits, and data is sent on registered conns. */
  ghost predicate CarefulSends(k: Crypto, cfg: B.Config, adders: nat, clock: B.Time, evs: seq<Event>) {
    forall i :: 0 <= i < |evs| ==>
      match Exec(k, cfg, adders, clock, evs[..i])
      case None => false
      case Some(p) =>
        && (evs[i].OpenConn? || evs[i].Connect? || WithinLimits(k, p, evs[i]))
        && (evs[i].SendData? ==> evs[i].c in p.tx.sendSeq)
  }

  /** Whatever is registered or was sent on goes back to a registration. */
  lemma {:induction false} GivenWasRegistered(k: Crypto, cfg: B.Config, adders: nat, clock: B.Time, evs: seq<Event>,
                                              s: State, c: uint32)
    requires Exec(k, cfg, adders, clock, evs) == Some(s) && CarefulSends(k, cfg, adders, clock, evs)
    requires c in s.tx.sendSeq || GivenTo(s.tx.given, c) != []
    ensures exists i :: 0 <= i < |evs| && Registers(evs[i], c)
  {
    if evs != [] {
      var n := |evs| - 1;
      var front, p := evs[..n], Exec(k, cfg, adders, clock, evs[..n]).value;
      if !Registers(evs[n], c) {
        forall i | 0 <= i < |front| ensures front[..i] == evs[..i] {}
        assert evs[n].SendData? ==> evs[n].c in p.tx.sendSeq;
        GivenWasRegistered(k, cfg, adders, clock, front, p, c);
        var i :| 0 <= i < |front| && Registers(front[i], c);
        assert Registers(evs[i], c);
      }
    }
  }

  /**
   Prefix safety needs no more than this of registrations: that each ID is registered at most
   once, by NewConn or by a handled CONNECT.
   */
  lemma OneRegistrationPerId(k: Crypto, cfg: B.Config, adders: nat, clock: B.Time, evs: seq<Event>, s: State)
    requires Sound(k) && Exec(k, cfg, adders, clock, evs) == Some(s) && CarefulSends(k, cfg, adders, clock, evs)
    requires forall c, i, j :: 0 <= i < j < |evs| && Registers(evs[i], c) ==> !Registers(evs[j], c)
    ensures Careful(k, cfg, adders, clock, evs) && Safe(s)
  {
    forall j | 0 <= j < |evs| ensures StepWithin(k, cfg, adders, clock, evs, j) {
      var front, p := evs[..j], Exec(k, cfg, adders, clock, evs[..j]).value;
      if (evs[j].OpenConn? || evs[j].Connect?) && GivenTo(p.tx.given, evs[j].c) != [] {
        forall i | 0 <= i < |front| ensures front[..i] == evs[..i] {}
        GivenWasRegistered(k, cfg, adders, clock, front, p, evs[j].c);
        var i :| 0 <= i < |front| && Registers(front[i], evs[j].c);
        assert Registers(evs[i], evs[j].c) && Registers(evs[j], evs[j].c);
      }
    }
    PrefixSafety(k, cfg, adders, clock, evs, s);
  }
}
