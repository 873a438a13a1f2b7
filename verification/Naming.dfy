/**
 How batches are named on the channel (telegram/sender.go) and recognised and ordered by the
 poller (telegram/poller.go): "{botID}_{seq:012d}" in front of a text batch or in the name of
 a document.
 */
module Naming {
  import opened Bytes
  import Base64

  const MAX_MESSAGE_CHARS := 4096
  const SEQ_LIMIT := 1_000_000_000_000

  function Digit(n: nat): char requires n < 10 { (48 + n) as char }

  /** Decimal digits without leading zeros. */
  function Dec(n: nat): (s: string) ensures s != "" {
    if n < 10 then [Digit(n)] else Dec(n / 10) + [Digit(n % 10)]
  }

  function BotText(id: int): string { if id < 0 then "-" + Dec(-id) else Dec(id) }

  function Zeros(n: nat): (s: string) ensures |s| == n { seq(n, _ => '0') }

  /** %012d */
  function Pad12(n: nat): string {
    (if |Dec(n)| < 12 then Zeros(12 - |Dec(n)|) else "") + Dec(n)
  }

  function Prefix(bot: int): string { BotText(bot) + "_" }

  function TextKey(bot: int, seqNum: nat): string { Prefix(bot) + Pad12(seqNum) }

  function Base(seqNum: nat): string {
    if seqNum % 3 == 0 then "backup" else if seqNum % 3 == 1 then "export" else "archive"
  }

  function DocKey(bot: int, seqNum: nat): string { TextKey(bot, seqNum) + "_" + Base(seqNum) }

  const EXTENSION := ".bin.zst"

  function RotatingFilename(bot: int, seqNum: nat): string { DocKey(bot, seqNum) + EXTENSION }

  predicate FitsTextBatch(bot: int, seqNum: nat, data: seq<byte>) {
    |TextKey(bot, seqNum) + "\n"| + Base64.EncodedLen(|data|) <= MAX_MESSAGE_CHARS
  }

  function FormatTextBatch(bot: int, seqNum: nat, data: seq<byte>): string {
    TextKey(bot, seqNum) + "\n" + Base64.Encode(data)
  }

  /** A text batch fits the message limit exactly when the size check says so. */
  lemma FitsExact(bot: int, seqNum: nat, data: seq<byte>)
    ensures FitsTextBatch(bot, seqNum, data) <==> |FormatTextBatch(bot, seqNum, data)| <= MAX_MESSAGE_CHARS
  {
    Base64.EncodeLength(data);
  }

  // ---------------------------------------------------------------- what the poller makes of a post

  datatype Document = Document(fileName: string, fileId: string)
  datatype Post = Post(chat: int, text: string, document: Option<Document>)

  datatype Content = Data(bytes: seq<byte>) | File(fileId: string)
  datatype Item = Item(sortKey: string, content: Content)

  function IndexOf(s: string, c: char): (i: nat)
    ensures i <= |s| && (forall j :: 0 <= j < i ==> s[j] != c) && (i < |s| ==> s[i] == c)
  {
    if s == "" then 0 else if s[0] == c then 0 else 1 + IndexOf(s[1..], c)
  }

  predicate HasSuffix(s: string, t: string) { |t| <= |s| && s[|s| - |t|..] == t }

  /** The poller's filter: the item a post stands for, if it is a batch from the expected bot. */
  function Accept(peer: int, channel: int, post: Post): Option<Item> {
    if post.chat != channel then None
    else if post.text != "" && Prefix(peer) <= post.text then
      var i := IndexOf(post.text, '\n');
      if i == |post.text| then None
      else match Base64.Decode(post.text[i + 1..])
        case None => None
        case Some(bytes) => Some(Item(post.text[..i], Data(bytes)))
    else if post.document.Some? && Prefix(peer) <= post.document.value.fileName
      && HasSuffix(post.document.value.fileName, EXTENSION) then
      var name := post.document.value.fileName;
      Some(Item(name[..|name| - |EXTENSION|], File(post.document.value.fileId)))
    else None
  }

  ghost predicate Lacks(s: string, c: char) { forall i :: 0 <= i < |s| ==> s[i] != c }

  ghost predicate Decimal(s: string) { forall i :: 0 <= i < |s| ==> '0' <= s[i] <= '9' }

  lemma {:induction false} DecDecimal(n: nat)
    ensures Decimal(Dec(n))
  {
    if n >= 10 {
      DecDecimal(n / 10);
    }
  }

  function Parsed(s: string): int {
    if s == "" then 0 else Parsed(s[..|s| - 1]) * 10 + (s[|s| - 1] as int - 48)
  }

  lemma {:induction false} ParsedDec(n: nat)
    ensures Parsed(Dec(n)) == n
  {
    if n < 10 {
      assert Dec(n)[..0] == "";
    } else {
      ParsedDec(n / 10);
      assert Dec(n)[..|Dec(n)| - 1] == Dec(n / 10);
    }
  }

  lemma BotTextInjective(a: int, b: int)
    requires BotText(a) == BotText(b)
    ensures a == b
  {
    DecDecimal(if a < 0 then -a else a);
    DecDecimal(if b < 0 then -b else b);
    ParsedDec(if a < 0 then -a else a);
    ParsedDec(if b < 0 then -b else b);
    assert a < 0 ==> BotText(a)[0] == '-' && BotText(a)[1..] == Dec(-a);
    assert b < 0 ==> BotText(b)[0] == '-' && BotText(b)[1..] == Dec(-b);
  }

  lemma BotTextLacks(id: int, c: char)
    requires c == '_' || c == '\n'
    ensures Lacks(BotText(id), c)
  {
    DecDecimal(if id < 0 then -id else id);
  }

  lemma FirstMark(a: string, b: string, c: char, rest: string)
    requires Lacks(a, c) && Lacks(b, c) && a + [c] <= b + [c] + rest
    ensures a == b
  {
    var x, y := a + [c], b + [c] + rest;
    assert y[..|x|] == x;
    assert x[|a|] == c && y[|b|] == c;
    assert a == x[..|a|] && b == y[..|b|];
  }

  /** A name that starts with one bot's prefix starts with no other's. */
  lemma PrefixExact(peer: int, bot: int, rest: string)
    ensures Prefix(peer) <= Prefix(bot) + rest <==> peer == bot
  {
    if Prefix(peer) <= Prefix(bot) + rest {
      BotTextLacks(peer, '_');
      BotTextLacks(bot, '_');
      FirstMark(BotText(peer), BotText(bot), '_', rest);
      BotTextInjective(peer, bot);
    }
  }

  lemma Pad12Decimal(n: nat)
    ensures Decimal(Pad12(n))
  {
    DecDecimal(n);
  }

  lemma TextKeyLacksNewline(bot: int, seqNum: nat)
    ensures Lacks(TextKey(bot, seqNum), '\n')
  {
    BotTextLacks(bot, '\n');
    Pad12Decimal(seqNum);
  }

  lemma SplitAtNewline(key: string, body: string)
    requires Lacks(key, '\n')
    ensures var s := key + "\n" + body;
      IndexOf(s, '\n') == |key| && s[..|key|] == key && s[|key| + 1..] == body
  {
    var s := key + "\n" + body;
    assert s[|key|] == '\n';
    assert forall j :: 0 <= j < |key| ==> s[j] == key[j];
  }

  /**
   A text batch is accepted by a poller exactly when it comes from the bot the poller expects,
   and then gives back its key and its data.
   */
  lemma TextBatchAccepted(peer: int, channel: int, bot: int, seqNum: nat, data: seq<byte>)
    ensures Accept(peer, channel, Post(channel, FormatTextBatch(bot, seqNum, data), None)) ==
      if bot == peer then Some(Item(TextKey(bot, seqNum), Data(data))) else None
  {
    var body := Base64.Encode(data);
    var text := FormatTextBatch(bot, seqNum, data);
    assert text == Prefix(bot) + (Pad12(seqNum) + "\n" + body);
    PrefixExact(peer, bot, Pad12(seqNum) + "\n" + body);
    TextKeyLacksNewline(bot, seqNum);
    SplitAtNewline(TextKey(bot, seqNum), body);
    Base64.RoundTrip(data);
  }

  /** The same for documents: the name gives back the sort key. */
  lemma DocumentAccepted(peer: int, channel: int, bot: int, seqNum: nat, fileId: string)
    ensures Accept(peer, channel, Post(channel, "", Some(Document(RotatingFilename(bot, seqNum), fileId)))) ==
      if bot == peer then Some(Item(DocKey(bot, seqNum), File(fileId))) else None
  {
    var rest := Pad12(seqNum) + "_" + Base(seqNum) + EXTENSION;
    assert RotatingFilename(bot, seqNum) == Prefix(bot) + rest;
    PrefixExact(peer, bot, rest);
    Trimmed(DocKey(bot, seqNum), EXTENSION);
  }

  lemma Trimmed(key: string, ext: string)
    ensures HasSuffix(key + ext, ext) && (key + ext)[..|key + ext| - |ext|] == key
  {}

  // ---------------------------------------------------------------- order

  /** Go's string order. */
  predicate Less(a: string, b: string) {
    b != "" && (a == "" || a[0] < b[0] || (a[0] == b[0] && Less(a[1..], b[1..])))
  }

  lemma {:induction false} LessAfter(p: string, a: string, b: string)
    ensures Less(p + a, p + b) <==> Less(a, b)
  {
    if p == "" {
      assert p + a == a && p + b == b;
    } else {
      assert (p + a)[1..] == p[1..] + a && (p + b)[1..] == p[1..] + b;
      LessAfter(p[1..], a, b);
    }
  }

  lemma {:induction false} LessAsymmetric(a: string, b: string)
    requires Less(a, b)
    ensures !Less(b, a)
  {
    if a != "" && a[0] == b[0] {
      LessAsymmetric(a[1..], b[1..]);
    }
  }

  /** The w lowest decimal digits. */
  function Digits(n: nat, w: nat): (s: string)
    ensures |s| == w
    decreases w
  {
    if w == 0 then "" else Digits(n / 10, w - 1) + [Digit(n % 10)]
  }

  function Pow10(w: nat): (p: nat) ensures p > 0 {
    if w == 0 then 1 else 10 * Pow10(w - 1)
  }

  lemma {:induction false} DigitsOrder(m: nat, n: nat, w: nat, x: string, y: string)
    requires m < n < Pow10(w)
    ensures Less(Digits(m, w) + x, Digits(n, w) + y)
    decreases w
  {
    var p, q := Digits(m / 10, w - 1), Digits(n / 10, w - 1);
    var a, b := [Digit(m % 10)] + x, [Digit(n % 10)] + y;
    assert Digits(m, w) + x == p + a && Digits(n, w) + y == q + b;
    if m / 10 < n / 10 {
      DigitsOrder(m / 10, n / 10, w - 1, a, b);
    } else {
      LessAfter(p, a, b);
    }
  }

  lemma {:induction false} PaddedDigits(n: nat, w: nat)
    requires 0 < w && n < Pow10(w)
    ensures |Dec(n)| <= w && Zeros(w - |Dec(n)|) + Dec(n) == Digits(n, w)
    decreases w
  {
    if n < 10 {
      ZeroDigits(w - 1);
      assert n / 10 == 0;
    } else {
      PaddedDigits(n / 10, w - 1);
    }
  }

  lemma {:induction false} ZeroDigits(w: nat)
    ensures Digits(0, w) == Zeros(w)
  {
    if w > 0 {
      ZeroDigits(w - 1);
    }
  }

  lemma Pow10Twelve()
    ensures Pow10(12) == SEQ_LIMIT
  {
    assert Pow10(4) == 10_000;
    assert Pow10(8) == 10_000 * Pow10(4);
    assert Pow10(12) == 10_000 * Pow10(8);
  }

  lemma Pad12Digits(n: nat)
    requires n < SEQ_LIMIT
    ensures Pad12(n) == Digits(n, 12)
  {
    Pow10Twelve();
    PaddedDigits(n, 12);
  }

  /** The key of a batch, text or document. */
  function Key(bot: int, seqNum: nat, document: bool): string {
    if document then DocKey(bot, seqNum) else TextKey(bot, seqNum)
  }

  function Tail(seqNum: nat, document: bool): string {
    if document then "_" + Base(seqNum) else ""
  }

  lemma KeyParts(bot: int, seqNum: nat, document: bool)
    ensures Key(bot, seqNum, document) == Prefix(bot) + (Pad12(seqNum) + Tail(seqNum, document))
  {
    Associate(Prefix(bot), Pad12(seqNum), "_", Base(seqNum));
    assert Pad12(seqNum) + "" == Pad12(seqNum);
  }

  lemma Associate(a: string, b: string, c: string, d: string)
    ensures a + b + c + d == a + (b + (c + d))
  {}

  /** Below 10^12, sort-key order is sequence order, for any mix of texts and documents. */
  lemma KeyOrder(bot: int, a: nat, b: nat, docA: bool, docB: bool)
    requires a < SEQ_LIMIT && b < SEQ_LIMIT && a != b
    ensures Less(Key(bot, a, docA), Key(bot, b, docB)) <==> a < b
  {
    if a < b {
      KeyOrderOneWay(bot, a, b, docA, docB);
    } else {
      KeyOrderOneWay(bot, b, a, docB, docA);
      LessAsymmetric(Key(bot, b, docB), Key(bot, a, docA));
    }
  }

  lemma KeyOrderOneWay(bot: int, a: nat, b: nat, docA: bool, docB: bool)
    requires a < b < SEQ_LIMIT
    ensures Less(Key(bot, a, docA), Key(bot, b, docB))
  {
    Pow10Twelve();
    Pad12Digits(a);
    Pad12Digits(b);
    DigitsOrder(a, b, 12, Tail(a, docA), Tail(b, docB));
    LessAfter(Prefix(bot), Pad12(a) + Tail(a, docA), Pad12(b) + Tail(b, docB));
    KeyParts(bot, a, docA);
    KeyParts(bot, b, docB);
  }

  lemma {:induction false} DecFirstOne(n: nat, w: nat)
    requires Pow10(w) <= n < 2 * Pow10(w)
    ensures Dec(n)[0] == '1' && |Dec(n)| == w + 1
    decreases w
  {
    if w > 0 {
      DecFirstOne(n / 10, w - 1);
    }
  }

  lemma {:induction false} DecFirstNine(n: nat, w: nat)
    requires 9 * Pow10(w) <= n < 10 * Pow10(w)
    ensures Dec(n)[0] == '9' && |Dec(n)| == w + 1
    decreases w
  {
    if w > 0 {
      DecFirstNine(n / 10, w - 1);
    }
  }

  /** At 10^12 the order breaks: the thirteenth digit puts the newer batch first. */
  lemma KeyOrderBreaks(bot: int)
    ensures !Less(TextKey(bot, SEQ_LIMIT - 1), TextKey(bot, SEQ_LIMIT))
  {
    Pow10Twelve();
    assert Pow10(12) == 10 * Pow10(11);
    DecFirstOne(SEQ_LIMIT, 12);
    DecFirstNine(SEQ_LIMIT - 1, 11);
    LessAfter(Prefix(bot), Pad12(SEQ_LIMIT - 1), Pad12(SEQ_LIMIT));
  }

  /** So 10^12 is exactly how far sort keys can be trusted. */
  lemma KeyOrderExact(bot: int, limit: nat)
    ensures (forall a: nat, b: nat :: a < b < limit ==> Less(TextKey(bot, a), TextKey(bot, b))) <==> limit <= SEQ_LIMIT
  {
    if limit <= SEQ_LIMIT {
      forall a: nat, b: nat | a < b < limit ensures Less(TextKey(bot, a), TextKey(bot, b)) {
        KeyOrderOneWay(bot, a, b, false, false);
      }
    } else {
      KeyOrderBreaks(bot);
      var a: nat, b: nat := SEQ_LIMIT - 1, SEQ_LIMIT;
      assert a < b < limit && !Less(TextKey(bot, a), TextKey(bot, b));
    }
  }

  // ---------------------------------------------------------------- the names themselves

  /** Below 10^12 the padded number is twelve decimal digits that spell it. */
  lemma PaddedSpells(n: nat)
    requires n < SEQ_LIMIT
    ensures |Pad12(n)| == 12 && Decimal(Pad12(n)) && Parsed(Pad12(n)) == n
  {
    Pad12Digits(n);
    Pow10Twelve();
    Pad12Decimal(n);
    DigitsSpell(n, 12);
  }

  lemma {:induction false} DigitsSpell(n: nat, w: nat)
    requires n < Pow10(w)
    ensures Parsed(Digits(n, w)) == n
    decreases w
  {
    if w > 0 {
      DigitsSpell(n / 10, w - 1);
      assert Digits(n, w)[..w - 1] == Digits(n / 10, w - 1);
    }
  }

  /** The two formats, written out. */
  lemma NamesSpelled(bot: int, seqNum: nat, data: seq<byte>)
    ensures FormatTextBatch(bot, seqNum, data) == BotText(bot) + "_" + Pad12(seqNum) + "\n" + Base64.Encode(data)
    ensures RotatingFilename(bot, seqNum) ==
      BotText(bot) + "_" + Pad12(seqNum) + "_" + ["backup", "export", "archive"][seqNum % 3] + ".bin.zst"
  {}

  lemma FirstIndex(s: string, c: char, i: nat)
    requires i < |s| && s[i] == c && forall j :: 0 <= j < i ==> s[j] != c
    ensures IndexOf(s, c) == i
  {}

  /** A text with the right prefix but no line break is no batch. */
  lemma UnbrokenTextRejected(peer: int, channel: int, post: Post)
    requires Prefix(peer) <= post.text && Lacks(post.text, '\n')
    ensures Accept(peer, channel, post).None?
  {
    assert IndexOf(post.text, '\n') == |post.text|;
  }

  /** Nor is one whose body, after the first line break, does not decode. */
  lemma UndecodableTextRejected(peer: int, channel: int, post: Post, i: nat)
    requires Prefix(peer) <= post.text && i < |post.text| && post.text[i] == '\n' && Lacks(post.text[..i], '\n')
    requires Base64.Decode(post.text[i + 1..]).None?
    ensures Accept(peer, channel, post).None?
  {
    assert forall j :: 0 <= j < i ==> post.text[j] == post.text[..i][j];
    FirstIndex(post.text, '\n', i);
  }

  /** A document whose name lacks the prefix or does not end in ".bin.zst" is no batch. */
  lemma ForeignDocumentRejected(peer: int, channel: int, post: Post)
    requires !(Prefix(peer) <= post.text) && post.document.Some?
    requires var name := post.document.value.fileName;
      !(Prefix(peer) <= name) || |name| < 8 || name[|name| - 8..] != ".bin.zst"
    ensures Accept(peer, channel, post).None?
  {}
}
