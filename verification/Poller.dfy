/**
 One round of the poll loop (Poller.Run in telegram/poller.go): the updates move the offset and
 are filtered into items, the items are sorted by key, and each is handed to the receive loop,
 documents through the download cache (DownloadFile in telegram/account.go).
 */
module Poller {
  import opened Bytes
  import opened Naming
  import opened PollCursor

  type Docs = map<string, seq<byte>>

  function PastAll(offset: nat, updates: seq<Update>): nat {
    if updates == [] then offset
    else PollCursor.Advance(PastAll(offset, updates[..|updates| - 1]), updates[|updates| - 1])
  }

  function ItemsIn(peer: int, channel: int, u: Update): seq<Item> {
    if u.post.None? then []
    else match Accept(peer, channel, u.post.value)
      case None => []
      case Some(item) => [item]
  }

  function Items(peer: int, channel: int, updates: seq<Update>): seq<Item> {
    if updates == [] then []
    else Items(peer, channel, updates[..|updates| - 1]) + ItemsIn(peer, channel, updates[|updates| - 1])
  }

  /** What one item hands on: its data, or the document, or nothing if the download fails. */
  function Resolve(item: Item, docs: Docs): seq<seq<byte>> {
    match item.content
    case Data(bytes) => [bytes]
    case File(id) => if id in docs then [docs[id]] else []
  }

  /** A downloaded document leaves the cache. */
  function Used(item: Item, docs: Docs): Docs {
    match item.content
    case Data(_) => docs
    case File(id) => docs - {id}
  }

  function Outputs(items: seq<Item>, docs: Docs): seq<seq<byte>> {
    if items == [] then [] else Resolve(items[0], docs) + Outputs(items[1..], Used(items[0], docs))
  }

  class Poller {
    const peer: int
    const channel: int
    var offset: nat
    var docs: Docs
    var recv: seq<seq<byte>>

    constructor (peer: int, channel: int)
      ensures this.peer == peer && this.channel == channel && offset == 0 && docs == map[] && recv == []
    {
      this.peer, this.channel, offset, docs, recv := peer, channel, 0, map[], [];
    }

    /** The loop over the updates of one poll. */
    method Scan(updates: seq<Update>) returns (items: seq<Item>)
      modifies this`offset
      ensures offset == PastAll(old(offset), updates)
      ensures items == Items(peer, channel, updates)
    {
      items := [];
      for i := 0 to |updates|
        invariant offset == PastAll(old(offset), updates[..i])
        invariant items == Items(peer, channel, updates[..i])
      {
        assert updates[..i + 1][..i] == updates[..i];
        var u := updates[i];
        if u.id >= offset {
          offset := u.id + 1;
        }
        if u.post.None? { continue; }
        match Accept(peer, channel, u.post.value) {
          case None =>
          case Some(item) => items := items + [item];
        }
      }
      assert updates[..|updates|] == updates;
    }

    /** The loop over the sorted items. */
    method HandOn(items: seq<Item>)
      modifies this`docs, this`recv
      ensures recv == old(recv) + Outputs(items, old(docs))
    {
      for i := 0 to |items|
        invariant recv + Outputs(items[i..], docs) == old(recv) + Outputs(items, old(docs))
      {
        var item := items[i];
        assert items[i..][1..] == items[i + 1..];
        match item.content {
          case Data(bytes) => recv := recv + [bytes];
          case File(id) =>
            if id in docs {
              recv := recv + [docs[id]];
            }
            docs := docs - {id};
        }
      }
    }
  }

  // ---------------------------------------------------------------- what a round delivers

  /** The offset ends just past the largest update ID of the round, or stays. */
  lemma {:induction false} OffsetPastAll(offset: nat, updates: seq<Update>)
    ensures PastAll(offset, updates) >= offset
    ensures forall i :: 0 <= i < |updates| ==> updates[i].id < PastAll(offset, updates)
    ensures PastAll(offset, updates) == offset ||
      exists i :: 0 <= i < |updates| && PastAll(offset, updates) == updates[i].id + 1
  {
    if updates != [] {
      var n := |updates| - 1;
      OffsetPastAll(offset, updates[..n]);
      if PastAll(offset, updates[..n]) != offset {
        var i :| 0 <= i < n && PastAll(offset, updates[..n]) == updates[..n][i].id + 1;
        assert updates[i].id == updates[..n][i].id;
      }
    }
  }

  /** A batch some bot sent; `fileId` is what the channel calls it if it went as a document. */
  datatype Sent = Sent(bot: int, seqNum: nat, data: seq<byte>, fileId: string)

  predicate AsText(b: Sent) { FitsTextBatch(b.bot, b.seqNum, b.data) }

  /** Sender.Send: a text message if it fits, else a document. */
  function PostOf(channel: int, b: Sent): Post {
    if AsText(b) then Post(channel, FormatTextBatch(b.bot, b.seqNum, b.data), None)
    else Post(channel, "", Some(Document(RotatingFilename(b.bot, b.seqNum), b.fileId)))
  }

  function ItemOf(b: Sent): Item {
    Item(Key(b.bot, b.seqNum, !AsText(b)), if AsText(b) then Data(b.data) else File(b.fileId))
  }

  lemma PostAccepted(peer: int, channel: int, b: Sent)
    ensures Accept(peer, channel, PostOf(channel, b)) == if b.bot == peer then Some(ItemOf(b)) else None
  {
    TextBatchAccepted(peer, channel, b.bot, b.seqNum, b.data);
    DocumentAccepted(peer, channel, b.bot, b.seqNum, b.fileId);
  }

  function IfFrom(peer: int, b: Option<Sent>): seq<Sent> {
    if b.Some? && b.value.bot == peer then [b.value] else []
  }

  function FromPeer(peer: int, sents: seq<Option<Sent>>): seq<Sent> {
    if sents == [] then []
    else FromPeer(peer, sents[..|sents| - 1]) + IfFrom(peer, sents[|sents| - 1])
  }

  function ItemsOf(sents: seq<Sent>): (items: seq<Item>) ensures |items| == |sents| {
    seq(|sents|, i requires 0 <= i < |sents| => ItemOf(sents[i]))
  }

  function DataOf(sents: seq<Sent>): (data: seq<seq<byte>>) ensures |data| == |sents| {
    seq(|sents|, i requires 0 <= i < |sents| => sents[i].data)
  }

  /**
   An update that is no batch of the peer on the face of it: no post, a post in another chat, or
   neither its text nor its file name starts with the peer's prefix.
   */
  predicate Noise(peer: int, channel: int, u: Update) {
    || u.post.None?
    || u.post.value.chat != channel
    || (!(Prefix(peer) <= u.post.value.text) &&
        (u.post.value.document.None? || !(Prefix(peer) <= u.post.value.document.value.fileName)))
  }

  /** Each update of a round carries a batch of some bot, or is noise. */
  ghost predicate Carry(peer: int, channel: int, updates: seq<Update>, sents: seq<Option<Sent>>) {
    && |updates| == |sents|
    && forall i :: 0 <= i < |sents| ==>
      match sents[i]
      case None => Noise(peer, channel, updates[i])
      case Some(b) => updates[i].post == Some(PostOf(channel, b))
  }

  lemma ItemsInSent(peer: int, channel: int, u: Update, b: Option<Sent>)
    requires if b.Some? then u.post == Some(PostOf(channel, b.value)) else Noise(peer, channel, u)
    ensures ItemsIn(peer, channel, u) == ItemsOf(IfFrom(peer, b))
  {
    if b.Some? {
      PostAccepted(peer, channel, b.value);
    }
  }

  lemma ItemsOfConcat(a: seq<Sent>, b: seq<Sent>)
    ensures ItemsOf(a + b) == ItemsOf(a) + ItemsOf(b)
  {}

  /** The filter keeps the peer's batches and nothing else. */
  lemma {:induction false} ItemsAreFromPeer(peer: int, channel: int, updates: seq<Update>, sents: seq<Option<Sent>>)
    requires Carry(peer, channel, updates, sents)
    ensures Items(peer, channel, updates) == ItemsOf(FromPeer(peer, sents))
  {
    if sents != [] {
      var n := |sents| - 1;
      ItemsAreFromPeer(peer, channel, updates[..n], sents[..n]);
      ItemsInSent(peer, channel, updates[n], sents[n]);
      ItemsOfConcat(FromPeer(peer, sents[..n]), IfFrom(peer, sents[n]));
    }
  }

  // ---------------------------------------------------------------- sorting

  /** All from one bot, with numbers the keys can order. */
  ghost predicate Orderly(peer: int, sents: seq<Sent>) {
    forall b :: b in sents ==> b.bot == peer && b.seqNum < SEQ_LIMIT
  }

  ghost predicate SortedByKey(items: seq<Item>) {
    forall i, j :: 0 <= i < j < |items| ==> !Less(items[j].sortKey, items[i].sortKey)
  }

  ghost predicate Nondecreasing(sents: seq<Sent>) {
    forall i, j :: 0 <= i < j < |sents| ==> sents[i].seqNum <= sents[j].seqNum
  }

  lemma ItemsOfCons(sents: seq<Sent>)
    requires sents != []
    ensures ItemsOf(sents) == [ItemOf(sents[0])] + ItemsOf(sents[1..])
  {}

  lemma Without(b: seq<Sent>, j: nat)
    requires j < |b|
    ensures multiset(b) == multiset(b[..j] + b[j + 1..]) + multiset{b[j]}
  {
    assert b == b[..j] + [b[j]] + b[j + 1..];
  }

  lemma ItemsWithout(b: seq<Sent>, j: nat)
    requires j < |b|
    ensures multiset(ItemsOf(b)) == multiset(ItemsOf(b[..j] + b[j + 1..])) + multiset{ItemOf(b[j])}
  {
    var front, back := b[..j], b[j + 1..];
    assert b == front + ([b[j]] + back);
    ItemsOfConcat(front, [b[j]] + back);
    ItemsOfConcat([b[j]], back);
    ItemsOfConcat(front, back);
    assert ItemsOf([b[j]]) == [ItemOf(b[j])];
  }

  lemma Locate(item: Item, sents: seq<Sent>) returns (j: nat)
    requires item in multiset(ItemsOf(sents))
    ensures j < |sents| && ItemOf(sents[j]) == item
  {
    var items := ItemsOf(sents);
    assert item in items;
    j :| 0 <= j < |items| && items[j] == item;
  }

  lemma RestMatches(items: seq<Item>, sents: seq<Sent>, j: nat)
    requires items != [] && j < |sents| && items[0] == ItemOf(sents[j]) && multiset(items) == multiset(ItemsOf(sents))
    ensures multiset(items[1..]) == multiset(ItemsOf(sents[..j] + sents[j + 1..]))
  {
    var rest := multiset(ItemsOf(sents[..j] + sents[j + 1..]));
    ItemsWithout(sents, j);
    assert items == [items[0]] + items[1..];
    assert multiset(items) == multiset{items[0]} + multiset(items[1..]);
    assert multiset(items) - multiset{items[0]} == rest;
  }

  lemma PutFirst(b: Sent, items: seq<Item>, rest: seq<Sent>)
    requires items != [] && ItemOf(b) == items[0] && ItemsOf(rest) == items[1..]
    ensures ItemsOf([b] + rest) == items
  {
    ItemsOfCons([b] + rest);
    assert ([b] + rest)[1..] == rest;
  }

  /** However the items are rearranged, the batches can be rearranged along with them. */
  lemma {:induction false} Rearrange(items: seq<Item>, sents: seq<Sent>) returns (order: seq<Sent>)
    requires multiset(items) == multiset(ItemsOf(sents))
    ensures multiset(order) == multiset(sents) && ItemsOf(order) == items
    decreases |items|
  {
    if items == [] {
      assert |multiset(ItemsOf(sents))| == 0;
      order := [];
    } else {
      assert items[0] in multiset(items);
      var j := Locate(items[0], sents);
      RestMatches(items, sents, j);
      var rest := Rearrange(items[1..], sents[..j] + sents[j + 1..]);
      Without(sents, j);
      PutFirst(sents[j], items, rest);
      order := [sents[j]] + rest;
    }
  }

  /** Sorted by key means sorted by number. */
  lemma SortedIsNondecreasing(peer: int, order: seq<Sent>)
    requires Orderly(peer, order) && SortedByKey(ItemsOf(order))
    ensures Nondecreasing(order)
  {
    forall i, j | 0 <= i < j < |order| ensures order[i].seqNum <= order[j].seqNum {
      if order[i].seqNum != order[j].seqNum {
        KeyOrder(peer, order[j].seqNum, order[i].seqNum, !AsText(order[j]), !AsText(order[i]));
        assert !Less(ItemsOf(order)[j].sortKey, ItemsOf(order)[i].sortKey);
      }
    }
  }

  // ---------------------------------------------------------------- handing on

  /** Each posted document has a file ID of its own, under which the cache holds it if at all. */
  ghost predicate OwnFiles(sents: seq<Sent>, docs: Docs) {
    && (forall b :: b in sents && !AsText(b) && b.fileId in docs ==> docs[b.fileId] == b.data)
    && (forall a, b :: a in sents && b in sents && !AsText(a) && !AsText(b) && a.fileId == b.fileId ==> a == b)
    && (forall b :: b in sents && !AsText(b) ==> multiset(sents)[b] == 1)
  }

  predicate Available(b: Sent, docs: Docs) { AsText(b) || b.fileId in docs }

  /** The batches that are texts or whose document can be downloaded. */
  function Found(sents: seq<Sent>, docs: Docs): seq<Sent> {
    if sents == [] then [] else (if Available(sents[0], docs) then [sents[0]] else []) + Found(sents[1..], docs)
  }

  lemma {:induction false} FoundSame(sents: seq<Sent>, docs: Docs, other: Docs)
    requires forall b :: b in sents ==> (Available(b, docs) <==> Available(b, other))
    ensures Found(sents, docs) == Found(sents, other)
  {
    if sents != [] {
      assert sents[0] in sents;
      FoundSame(sents[1..], docs, other);
    }
  }

  lemma {:induction false} FoundAll(sents: seq<Sent>, docs: Docs)
    requires forall b :: b in sents ==> Available(b, docs)
    ensures Found(sents, docs) == sents
  {
    if sents != [] {
      assert sents[0] in sents;
      FoundAll(sents[1..], docs);
    }
  }

  /** Using up one document leaves the others alone. */
  lemma OwnFilesRest(sents: seq<Sent>, docs: Docs)
    requires sents != [] && OwnFiles(sents, docs)
    ensures var rest, left := sents[1..], Used(ItemOf(sents[0]), docs);
      OwnFiles(rest, left) && forall b :: b in rest ==> (Available(b, docs) <==> Available(b, left))
  {
    var b, rest := sents[0], sents[1..];
    assert sents == [b] + rest;
    assert multiset(sents) == multiset{b} + multiset(rest);
    forall x | x in rest && !AsText(x) ensures (!AsText(b) ==> x.fileId != b.fileId) && multiset(rest)[x] == 1 {
      assert x in multiset(rest);
      assert x in sents && b in sents;
    }
  }

  lemma {:induction false} OutputsAreData(sents: seq<Sent>, docs: Docs)
    requires OwnFiles(sents, docs)
    ensures Outputs(ItemsOf(sents), docs) == DataOf(Found(sents, docs))
    decreases |sents|
  {
    if sents != [] {
      var b, rest, left := sents[0], sents[1..], Used(ItemOf(sents[0]), docs);
      ItemsOfCons(sents);
      OwnFilesRest(sents, docs);
      OutputsAreData(rest, left);
      FoundSame(rest, docs, left);
      assert b in sents;
      assert ItemsOf(sents)[1..] == ItemsOf(rest);
      DataOfHead(b, Found(rest, docs));
    }
  }

  lemma DataOfHead(b: Sent, rest: seq<Sent>)
    ensures DataOf([b] + rest) == [b.data] + DataOf(rest) && [] + DataOf(rest) == DataOf(rest)
  {}

  lemma {:induction false} FromPeerBots(peer: int, sents: seq<Option<Sent>>)
    ensures forall b :: b in FromPeer(peer, sents) ==> b.bot == peer
  {
    if sents != [] {
      FromPeerBots(peer, sents[..|sents| - 1]);
    }
  }

  lemma SameMembers(a: seq<Sent>, b: seq<Sent>)
    requires multiset(a) == multiset(b)
    ensures forall x :: x in a <==> x in b
  {
    forall x ensures x in a <==> x in b {
      assert x in a <==> x in multiset(a);
      assert x in b <==> x in multiset(b);
    }
  }

  /**
   A round, end to end. Whatever order the updates come in, whatever else was posted in between,
   and also if a batch was posted more than once: each posting of the peer's batches is handed on
   exactly once, byte for byte, in the order of the numbers, text and document batches alike;
   only documents that cannot be downloaded are left out.
   */
  lemma RoundDeliversInOrder(peer: int, channel: int, updates: seq<Update>, sents: seq<Option<Sent>>,
                             sorted: seq<Item>, docs: Docs)
    returns (order: seq<Sent>)
    requires Carry(peer, channel, updates, sents)
    requires forall b :: b in FromPeer(peer, sents) ==> b.seqNum < SEQ_LIMIT
    requires OwnFiles(FromPeer(peer, sents), docs)
    requires SortedByKey(sorted) && multiset(sorted) == multiset(Items(peer, channel, updates))
    ensures multiset(order) == multiset(FromPeer(peer, sents)) && Nondecreasing(order)
    ensures Outputs(sorted, docs) == DataOf(Found(order, docs))
    ensures (forall b :: b in order ==> Available(b, docs)) ==> Outputs(sorted, docs) == DataOf(order)
  {
    var batches := FromPeer(peer, sents);
    ItemsAreFromPeer(peer, channel, updates, sents);
    order := Rearrange(sorted, batches);
    SameMembers(order, batches);
    FromPeerBots(peer, sents);
    SortedIsNondecreasing(peer, order);
    OutputsAreData(order, docs);
    if forall b :: b in order ==> Available(b, docs) {
      FoundAll(order, docs);
    }
  }
}
