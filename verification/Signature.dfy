/**
  The message a task's signature covers: seven fields joined by colons, numbers in
  decimal, the payload in base64 as in section 4 of RFC 4648.
 */
module Signature {
  import opened Prelude
  import opened Tasks
  import opened Lineage
  import TaskSystem
  import TaskHistory

  predicate NoColon(s: string) {
    ':' !in s
  }

  // ---- Decimal numbers ----

  function Digit(d: nat): char
    requires d < 10
  {
    '0' + d as char
  }

  function Digits(n: nat): string {
    if n < 10 then [Digit(n)] else Digits(n / 10) + [Digit(n % 10)]
  }

  function Decimal(n: int): string {
    if n < 0 then "-" + Digits(-n) else Digits(n)
  }

  function DigitValue(c: char): nat {
    if '0' <= c <= '9' then (c - '0') as nat else 0
  }

  function ParseDigits(s: string): nat {
    if s == "" then 0 else 10 * ParseDigits(s[..|s| - 1]) + DigitValue(s[|s| - 1])
  }

  function ParseDecimal(s: string): int {
    if s != "" && s[0] == '-' then 0 - ParseDigits(s[1..]) else ParseDigits(s)
  }

  lemma {:induction false} DigitsParse(n: nat)
    ensures ParseDigits(Digits(n)) == n && NoColon(Digits(n)) && Digits(n) != "" && Digits(n)[0] != '-'
  {
    if n < 10 {
      assert Digits(n)[..0] == "";
    } else {
      DigitsParse(n / 10);
      assert Digits(n)[..|Digits(n)| - 1] == Digits(n / 10);
    }
  }

  lemma DecimalParses(n: int)
    ensures ParseDecimal(Decimal(n)) == n && NoColon(Decimal(n))
  {
    DigitsParse(if n < 0 then -n else n);
    if n < 0 { assert Decimal(n)[1..] == Digits(-n); }
  }

  // ---- Base64 ----

  function Symbol(v: nat): char
    requires v < 64
  {
    if v < 26 then 'A' + v as char
    else if v < 52 then 'a' + (v - 26) as char
    else if v < 62 then '0' + (v - 52) as char
    else if v == 62 then '+' else '/'
  }

  function SymbolValue(c: char): (v: nat)
    ensures v < 64
  {
    if 'A' <= c <= 'Z' then (c - 'A') as nat
    else if 'a' <= c <= 'z' then (c - 'a') as nat + 26
    else if '0' <= c <= '9' then (c - '0') as nat + 52
    else if c == '+' then 62 else if c == '/' then 63 else 0
  }

  lemma SymbolsRoundTrip(v: nat)
    requires v < 64
    ensures SymbolValue(Symbol(v)) == v && Symbol(v) != ':' && Symbol(v) != '='
  {
  }

  /** Three bytes as four symbols; missing bytes count as zero. */
  function Quartet(a: Byte, b: Byte, c: Byte): string {
    [Symbol(a / 4), Symbol(a % 4 * 16 + b / 16), Symbol(b % 16 * 4 + c / 64), Symbol(c % 64)]
  }

  function Base64(b: seq<Byte>): string {
    if |b| == 0 then ""
    else if |b| == 1 then Quartet(b[0], 0, 0)[..2] + "=="
    else if |b| == 2 then Quartet(b[0], b[1], 0)[..3] + "="
    else Quartet(b[0], b[1], b[2]) + Base64(b[3..])
  }

  function FromBase64(s: string): seq<Byte> {
    if |s| < 4 then []
    else
      var w, x, y, z := SymbolValue(s[0]), SymbolValue(s[1]), SymbolValue(s[2]), SymbolValue(s[3]);
      var first, second, third := w * 4 + x / 16, x % 16 * 16 + y / 4, y % 4 * 64 + z;
      if s[2] == '=' then [first]
      else if s[3] == '=' then [first, second]
      else [first, second, third] + FromBase64(s[4..])
  }

  lemma QuartetDecodes(a: Byte, b: Byte, c: Byte)
    ensures
      var q := Quartet(a, b, c);
      var w, x, y, z := SymbolValue(q[0]), SymbolValue(q[1]), SymbolValue(q[2]), SymbolValue(q[3]);
      && w * 4 + x / 16 == a && x % 16 * 16 + y / 4 == b && y % 4 * 64 + z == c
    ensures forall i :: 0 <= i < 4 ==> Quartet(a, b, c)[i] != ':' && Quartet(a, b, c)[i] != '='
  {
    SymbolsRoundTrip(a / 4);
    SymbolsRoundTrip(a % 4 * 16 + b / 16);
    SymbolsRoundTrip(b % 16 * 4 + c / 64);
    SymbolsRoundTrip(c % 64);
  }

  lemma FullGroupDecodes(a: Byte, b: Byte, c: Byte, rest: string)
    ensures FromBase64(Quartet(a, b, c) + rest) == [a, b, c] + FromBase64(rest)
  {
    QuartetDecodes(a, b, c);
    var s := Quartet(a, b, c) + rest;
    assert s[4..] == rest;
  }

  lemma LastGroupDecodes(a: Byte, b: Byte)
    ensures FromBase64(Base64([a])) == [a] && NoColon(Base64([a]))
    ensures FromBase64(Base64([a, b])) == [a, b] && NoColon(Base64([a, b]))
  {
    QuartetDecodes(a, 0, 0);
    QuartetDecodes(a, b, 0);
  }

  lemma {:induction false} Base64RoundTrip(b: seq<Byte>)
    ensures FromBase64(Base64(b)) == b && NoColon(Base64(b))
  {
    if |b| == 0 {
    } else if |b| == 1 {
      LastGroupDecodes(b[0], 0);
      assert b == [b[0]];
    } else if |b| == 2 {
      LastGroupDecodes(b[0], b[1]);
      assert b == [b[0], b[1]];
    } else {
      QuartetDecodes(b[0], b[1], b[2]);
      Base64RoundTrip(b[3..]);
      FullGroupDecodes(b[0], b[1], b[2], Base64(b[3..]));
      assert Base64(b) == Quartet(b[0], b[1], b[2]) + Base64(b[3..]);
    }
  }

  /** Symbols follow table 1 of RFC 4648: the letters in order, the digits, plus and slash. */
  lemma SymbolsFollowAlphabet(v: nat)
    requires v < 64
    ensures v < 26 ==> Symbol(v) as int == 65 + v
    ensures 26 <= v < 52 ==> Symbol(v) as int == 97 + v - 26
    ensures 52 <= v < 62 ==> Symbol(v) as int == 48 + v - 52
    ensures v == 62 ==> Symbol(v) == '+'
    ensures v == 63 ==> Symbol(v) == '/'
  {
  }

  lemma HighDigits(a: Byte, b: Byte, c: Byte)
    ensures
      var word := a * 65536 + b * 256 + c;
      word / 262144 == a / 4 && word / 4096 == a * 16 + b / 16
  {
  }

  lemma LowDigits(a: Byte, b: Byte, c: Byte)
    ensures
      var word := a * 65536 + b * 256 + c;
      word / 64 == a * 1024 + b * 4 + c / 64 && word % 64 == c % 64
  {
  }

  lemma MiddleDigits(a: Byte, b: Byte, c: Byte)
    ensures (a * 16 + b / 16) % 64 == a % 4 * 16 + b / 16
    ensures (a * 1024 + b * 4 + c / 64) % 64 == b % 16 * 4 + c / 64
  {
    Residue(a * 16 + b / 16, a / 4, a % 4 * 16 + b / 16);
    Residue(a * 1024 + b * 4 + c / 64, a * 16 + b / 16, b % 16 * 4 + c / 64);
  }

  lemma Residue(x: int, k: int, r: int)
    requires x == 64 * k + r && 0 <= r < 64
    ensures x % 64 == r
  {
  }

  /** The four symbols of a group are the six-bit digits of its three bytes, high ones first. */
  lemma QuartetIsBaseSixtyFour(a: Byte, b: Byte, c: Byte)
    ensures
      var word := a * 65536 + b * 256 + c;
      var q := Quartet(a, b, c);
      && word / 262144 < 64 && |q| == 4
      && q[0] == Symbol(word / 262144) && q[1] == Symbol(word / 4096 % 64)
      && q[2] == Symbol(word / 64 % 64) && q[3] == Symbol(word % 64)
  {
    HighDigits(a, b, c);
    LowDigits(a, b, c);
    MiddleDigits(a, b, c);
  }

  lemma {:induction false} Base64Length(b: seq<Byte>)
    ensures |Base64(b)| == (|b| + 2) / 3 * 4
  {
    if |b| >= 3 {
      Base64Length(b[3..]);
      OneGroupMore(|b|);
      assert |Base64(b)| == 4 + |Base64(b[3..])|;
    }
  }

  lemma OneGroupMore(n: nat)
    requires n >= 3
    ensures (n + 2) / 3 * 4 == 4 + (n - 1) / 3 * 4
  {
  }

  /** Group `i` of the encoding stands for bytes `3 i` to `3 i + 2`. */
  lemma {:induction false} Base64Groups(b: seq<Byte>, i: nat)
    requires 3 * i + 2 < |b|
    ensures 4 * i + 4 <= |Base64(b)|
    ensures Base64(b)[4 * i..4 * i + 4] == Quartet(b[3 * i], b[3 * i + 1], b[3 * i + 2])
  {
    Base64Length(b);
    var q, rest := Quartet(b[0], b[1], b[2]), Base64(b[3..]);
    assert Base64(b) == q + rest;
    if i > 0 {
      Base64Groups(b[3..], i - 1);
      assert (q + rest)[4 * i..4 * i + 4] == rest[4 * (i - 1)..4 * (i - 1) + 4];
    } else {
      assert (q + rest)[0..4] == q;
    }
  }

  /** Whole groups are encoded one by one, whatever follows them. */
  lemma {:induction false} Base64Splits(a: seq<Byte>, b: seq<Byte>)
    requires |a| % 3 == 0
    ensures Base64(a + b) == Base64(a) + Base64(b)
  {
    if a == [] {
      assert a + b == b;
      assert "" + Base64(b) == Base64(b);
    } else {
      Base64Splits(a[3..], b);
      assert (a + b)[3..] == a[3..] + b;
      FirstGroup(a);
      FirstGroup(a + b);
      Associates(Quartet(a[0], a[1], a[2]), Base64(a[3..]), Base64(b));
    }
  }

  lemma Associates(x: string, y: string, z: string)
    ensures x + (y + z) == x + y + z
  {
  }

  lemma FirstGroup(b: seq<Byte>)
    requires |b| >= 3
    ensures Base64(b) == Quartet(b[0], b[1], b[2]) + Base64(b[3..])
  {
  }

  /** One or two bytes make a group padded with an equals sign for each byte missing. */
  lemma Base64Padding(a: Byte, b: Byte)
    ensures Base64([a]) == [Symbol(a / 4), Symbol(a % 4 * 16), '=', '=']
    ensures Base64([a, b]) == [Symbol(a / 4), Symbol(a % 4 * 16 + b / 16), Symbol(b % 16 * 4), '=']
  {
  }

  // ---- The message ----

  function DeadlineOf(t: Task): int {
    if t.deadline.Some? then t.deadline.value else 0
  }

  function Tail(t: Task): string {
    ":" + Decimal(t.maxTries) + ":" + Decimal(t.createdAt) + ":" + Decimal(DeadlineOf(t)) + ":" + Base64(t.payload)
  }

  function Joined(t: Task): string {
    t.id + ":" + (t.queue + ":" + (t.ttype + Tail(t)))
  }

  /** `signatureMessage`: refused while the task has no queue. */
  function Message(t: Task): Option<string> {
    if t.queue == "" then None else Some(Joined(t))
  }

  /** The layout: seven fields joined by colons, in this order, for every task that has a
      queue and for no other. */
  lemma MessageLayout(t: Task)
    ensures Message(t).Some? <==> t.queue != ""
    ensures Message(t).Some? ==>
      Message(t).value == t.id + ":" + t.queue + ":" + t.ttype + ":" + Decimal(t.maxTries) + ":" + Decimal(t.createdAt)
                        + ":" + Decimal(if t.deadline.Some? then t.deadline.value else 0) + ":" + Base64(t.payload)
  {
    Regrouped(t.id, t.queue, t.ttype, Decimal(t.maxTries), Decimal(t.createdAt), Decimal(DeadlineOf(t)),
              Base64(t.payload));
  }

  lemma Regrouped(a: string, b: string, c: string, d: string, e: string, f: string, g: string)
    ensures a + ":" + (b + ":" + (c + (":" + d + ":" + e + ":" + f + ":" + g)))
         == a + ":" + b + ":" + c + ":" + d + ":" + e + ":" + f + ":" + g
  {
    var tail := ":" + d + ":" + e + ":" + f + ":" + g;
    TailRegroups(a + ":" + b + ":" + c, d, e, f, g);
    assert a + ":" + (b + ":" + (c + tail)) == (a + ":" + b + ":" + c) + tail;
  }

  // ---- Reading it back ----

  function UpToColon(s: string): string {
    if s == "" || s[0] == ':' then "" else [s[0]] + UpToColon(s[1..])
  }

  function PastColon(s: string): string {
    if s == "" then "" else if s[0] == ':' then s[1..] else PastColon(s[1..])
  }

  function UpToLastColon(s: string): string {
    if s == "" then "" else if s[|s| - 1] == ':' then s[..|s| - 1] else UpToLastColon(s[..|s| - 1])
  }

  function PastLastColon(s: string): string {
    if s == "" || s[|s| - 1] == ':' then "" else PastLastColon(s[..|s| - 1]) + [s[|s| - 1]]
  }

  lemma {:induction false} FirstColonSplits(a: string, b: string)
    requires NoColon(a)
    ensures UpToColon(a + ":" + b) == a && PastColon(a + ":" + b) == b
  {
    var s := a + ":" + b;
    if a == "" {
      assert s[1..] == b;
    } else {
      FirstColonSplits(a[1..], b);
      assert s[1..] == a[1..] + ":" + b;
    }
  }

  lemma {:induction false} LastColonSplits(a: string, b: string)
    requires NoColon(b)
    ensures UpToLastColon(a + ":" + b) == a && PastLastColon(a + ":" + b) == b
  {
    var s := a + ":" + b;
    if b == "" {
      assert s[..|s| - 1] == a;
    } else {
      LastColonSplits(a, b[..|b| - 1]);
      assert s[..|s| - 1] == a + ":" + b[..|b| - 1];
    }
  }

  datatype Signed = Signed(id: string, queue: string, ttype: string, maxTries: int, createdAt: int, deadline: int,
      payload: seq<Byte>)

  /** The first two fields are cut from the left and the last four from the right, so the
      type in the middle may contain colons. */
  function Decode(msg: string): Signed {
    var r := PastColon(PastColon(msg));
    var r1 := UpToLastColon(r);
    var r2 := UpToLastColon(r1);
    var r3 := UpToLastColon(r2);
    Signed(UpToColon(msg), UpToColon(PastColon(msg)), UpToLastColon(r3),
           ParseDecimal(PastLastColon(r3)), ParseDecimal(PastLastColon(r2)), ParseDecimal(PastLastColon(r1)),
           FromBase64(PastLastColon(r)))
  }

  /** The message determines everything it covers whenever id and queue have no colon. */
  lemma MessageDecodes(t: Task)
    requires NoColon(t.id) && NoColon(t.queue)
    ensures
      var deadline := if t.deadline.Some? then t.deadline.value else 0;
      Decode(Joined(t)) == Signed(t.id, t.queue, t.ttype, t.maxTries, t.createdAt, deadline, t.payload)
  {
    var r := t.ttype + Tail(t);
    FirstColonSplits(t.id, t.queue + ":" + r);
    FirstColonSplits(t.queue, r);
    TailDecodes(t);
  }

  /** The last four fields, each cut off at the last colon left. */
  lemma TailDecodes(t: Task)
    ensures
      var r := t.ttype + Tail(t);
      var r1 := UpToLastColon(r);
      var r2 := UpToLastColon(r1);
      var r3 := UpToLastColon(r2);
      && FromBase64(PastLastColon(r)) == t.payload
      && ParseDecimal(PastLastColon(r1)) == DeadlineOf(t)
      && ParseDecimal(PastLastColon(r2)) == t.createdAt
      && ParseDecimal(PastLastColon(r3)) == t.maxTries
      && UpToLastColon(r3) == t.ttype
  {
    var r3 := t.ttype + ":" + Decimal(t.maxTries);
    var r2 := r3 + ":" + Decimal(t.createdAt);
    var r1 := r2 + ":" + Decimal(DeadlineOf(t));
    TailRegroups(t.ttype, Decimal(t.maxTries), Decimal(t.createdAt), Decimal(DeadlineOf(t)), Base64(t.payload));
    DecimalParses(t.maxTries);
    DecimalParses(t.createdAt);
    DecimalParses(DeadlineOf(t));
    Base64RoundTrip(t.payload);
    LastColonSplits(r1, Base64(t.payload));
    LastColonSplits(r2, Decimal(DeadlineOf(t)));
    LastColonSplits(r3, Decimal(t.createdAt));
    LastColonSplits(t.ttype, Decimal(t.maxTries));
  }

  lemma TailRegroups(t: string, a: string, b: string, c: string, d: string)
    ensures t + (":" + a + ":" + b + ":" + c + ":" + d) == t + ":" + a + ":" + b + ":" + c + ":" + d
  {
  }

  // ---- Exactly when the message is unique ----

  function Head(t: Task): string {
    t.id + ":" + (t.queue + ":" + t.ttype)
  }

  /** The names a task can have: checked ones for id and type, any but the empty one for
      its queue. */
  predicate Named(t: Task) {
    IsValidName(t.id) && IsValidName(t.ttype) && t.queue != ""
  }

  predicate ValidChars(s: string) {
    forall i :: 0 <= i < |s| ==> ValidNameChar(s[i])
  }

  /** Cutting the queue at this colon leaves some of it, and what is cut off can belong to
      the id before it or to the type after it. */
  predicate CutAt(queue: string, i: nat) {
    && i < |queue| && queue[i] == ':'
    && ((i + 1 < |queue| && ValidChars(queue[..i])) || (i > 0 && ValidChars(queue[i + 1..])))
  }

  /** Some colon inside a field can be read as one between fields: one in the id that is not
      its first character, one in the type that is not its last, or one that cuts the queue. */
  predicate Ambiguous(id: string, queue: string, ttype: string)
    requires id != "" && ttype != ""
  {
    ':' in id[1..] || ':' in ttype[..|ttype| - 1] || exists i :: 0 <= i < |queue| && CutAt(queue, i)
  }

  /** The same as far as the signature is concerned: a missing deadline and one at the epoch
      are told apart by nothing else. */
  predicate SameDeadline(a: Option<int>, b: Option<int>) {
    a == b || (a == None && b == Some(0)) || (a == Some(0) && b == None)
  }

  /** The tasks agree on every field the signature covers. */
  predicate Agree(t: Task, u: Task) {
    && t.id == u.id && t.queue == u.queue && t.ttype == u.ttype && t.maxTries == u.maxTries
    && t.createdAt == u.createdAt && t.payload == u.payload && SameDeadline(t.deadline, u.deadline)
  }

  /** What a message is made of. */
  datatype Parts = Parts(head: string, maxTries: int, createdAt: int, deadline: int, payload: seq<Byte>)

  function PartsOf(t: Task): Parts {
    Parts(Head(t), t.maxTries, t.createdAt, DeadlineOf(t), t.payload)
  }

  function Assembled(p: Parts): string {
    p.head + ":" + Decimal(p.maxTries) + ":" + Decimal(p.createdAt) + ":" + Decimal(p.deadline) + ":"
        + Base64(p.payload)
  }

  function Disassembled(msg: string): Parts {
    var r1 := UpToLastColon(msg);
    var r2 := UpToLastColon(r1);
    var r3 := UpToLastColon(r2);
    Parts(UpToLastColon(r3), ParseDecimal(PastLastColon(r3)), ParseDecimal(PastLastColon(r2)),
          ParseDecimal(PastLastColon(r1)), FromBase64(PastLastColon(msg)))
  }

  lemma PartsDecode(p: Parts)
    ensures Disassembled(Assembled(p)) == p
  {
    var r3 := p.head + ":" + Decimal(p.maxTries);
    var r2 := r3 + ":" + Decimal(p.createdAt);
    var r1 := r2 + ":" + Decimal(p.deadline);
    DecimalParses(p.maxTries);
    DecimalParses(p.createdAt);
    DecimalParses(p.deadline);
    Base64RoundTrip(p.payload);
    LastColonSplits(r1, Base64(p.payload));
    LastColonSplits(r2, Decimal(p.deadline));
    LastColonSplits(r3, Decimal(p.createdAt));
    LastColonSplits(p.head, Decimal(p.maxTries));
  }

  lemma MessageIsAssembled(t: Task)
    ensures Joined(t) == Assembled(PartsOf(t))
  {
    HeadAndTail(t.id, t.queue, t.ttype, Tail(t));
    TailRegroups(Head(t), Decimal(t.maxTries), Decimal(t.createdAt), Decimal(DeadlineOf(t)), Base64(t.payload));
  }

  lemma SameMessage(t: Task, u: Task)
    ensures Joined(t) == Joined(u) <==> PartsOf(t) == PartsOf(u)
  {
    MessageIsAssembled(t);
    MessageIsAssembled(u);
    PartsDecode(PartsOf(t));
    PartsDecode(PartsOf(u));
  }

  lemma HeadAndTail(a: string, b: string, c: string, tail: string)
    ensures a + ":" + (b + ":" + (c + tail)) == a + ":" + (b + ":" + c) + tail
  {
  }

  /** A head can be cut in only one way into names unless some colon makes it ambiguous. */
  lemma HeadIsUnique(a: string, b: string, c: string, a': string, b': string, c': string)
    requires IsValidName(a) && IsValidName(c) && b != "" && IsValidName(a') && IsValidName(c') && b' != ""
    requires !Ambiguous(a, b, c) && a + ":" + (b + ":" + c) == a' + ":" + (b' + ":" + c')
    ensures a == a' && b == b' && c == c'
  {
    var h, p, p' := a + ":" + (b + ":" + c), |a|, |a'|;
    var q, q' := p + 1 + |b|, p' + 1 + |b'|;
    assert h[p'] == ':' && h[q'] == ':' && a' == h[..p'] && c' == h[q' + 1..] && b' == h[p' + 1..q'];
    assert a == h[..p] && c == h[q + 1..] && b == h[p + 1..q];
    if p' < p {
      assert false;
    }
    if q' > q {
      assert false;
    }
    if p' > p {
      LeftCut(h, p, q, p');
      assert false;
    }
    if q' < q {
      RightCut(h, p, q, q');
      assert false;
    }
  }

  lemma LeftCut(h: string, p: nat, q: nat, p': nat)
    requires p < p' && p' + 1 < q <= |h| && h[p'] == ':' && IsValidName(h[..p'])
    ensures CutAt(h[p + 1..q], p' - p - 1)
  {
    var i := p' - p - 1;
    assert h[p + 1..q][..i] == h[..p'][p + 1..];
  }

  lemma RightCut(h: string, p: nat, q: nat, q': nat)
    requires p + 1 < q' < q < |h| && h[q'] == ':' && IsValidName(h[q' + 1..])
    ensures CutAt(h[p + 1..q], q' - p - 1)
  {
    var i := q' - p - 1;
    assert h[p + 1..q][i + 1..] == h[q' + 1..][..q - q' - 1];
  }

  /** A task whose names are not ambiguous shares its message only with tasks that agree on
      every field the signature covers, whatever colons the others contain. */
  lemma MessageIsInjective(t: Task, u: Task)
    requires Named(t) && Named(u) && !Ambiguous(t.id, t.queue, t.ttype)
    ensures Message(t) == Message(u) <==> Agree(t, u)
  {
    SameMessage(t, u);
    if Head(t) == Head(u) { HeadIsUnique(t.id, t.queue, t.ttype, u.id, u.queue, u.ttype); }
  }

  /** An ambiguous task has a twin: validly named, with the same message, but differing in
      its queue and in its id or type. */
  lemma ColonsMakeItAmbiguous(t: Task) returns (u: Task)
    requires Named(t) && Ambiguous(t.id, t.queue, t.ttype)
    ensures Named(u) && Message(u) == Message(t) && u.queue != t.queue && (u.id != t.id || u.ttype != t.ttype)
  {
    if ':' in t.id[1..] { u := CutId(t); }
    else if ':' in t.ttype[..|t.ttype| - 1] { u := CutType(t); }
    else { u := CutQueue(t); }
    SameMessage(t, u);
  }

  /** Another task, named validly and differing in its queue, with the same head. */
  predicate Twin(t: Task, u: Task) {
    && Named(u) && Head(u) == Head(t) && u == t.(id := u.id, queue := u.queue, ttype := u.ttype)
    && u.queue != t.queue && (u.id != t.id || u.ttype != t.ttype)
  }

  lemma CutId(t: Task) returns (u: Task)
    requires Named(t) && ':' in t.id[1..]
    ensures Twin(t, u)
  {
    var i :| 0 <= i < |t.id[1..]| && t.id[1..][i] == ':';
    var l, r := t.id[..i + 1], t.id[i + 2..];
    assert t.id == l + ":" + r;
    u := t.(id := l, queue := r + ":" + t.queue);
    Regroup(l, r, t.queue, t.ttype);
  }

  lemma CutType(t: Task) returns (u: Task)
    requires Named(t) && ':' in t.ttype[..|t.ttype| - 1]
    ensures Twin(t, u)
  {
    var i :| 0 <= i < |t.ttype| - 1 && t.ttype[..|t.ttype| - 1][i] == ':';
    var l, r := t.ttype[..i], t.ttype[i + 1..];
    assert t.ttype == l + ":" + r;
    u := t.(queue := t.queue + ":" + l, ttype := r);
    Regroup'(t.id, t.queue, l, r);
  }

  lemma CutQueue(t: Task) returns (u: Task)
    requires Named(t) && exists i :: 0 <= i < |t.queue| && CutAt(t.queue, i)
    ensures Twin(t, u)
  {
    var i :| 0 <= i < |t.queue| && CutAt(t.queue, i);
    var l, r := t.queue[..i], t.queue[i + 1..];
    assert t.queue == l + ":" + r;
    if i + 1 < |t.queue| && ValidChars(l) {
      u := t.(id := t.id + ":" + l, queue := r);
      Regroup(t.id, l, r, t.ttype);
    } else {
      u := t.(queue := l, ttype := r + ":" + t.ttype);
      Regroup'(t.id, l, r, t.ttype);
    }
  }

  lemma Regroup(a: string, b: string, c: string, d: string)
    ensures (a + ":" + b) + ":" + (c + ":" + d) == a + ":" + ((b + ":" + c) + ":" + d)
  {
  }

  lemma Regroup'(a: string, b: string, c: string, d: string)
    ensures a + ":" + ((b + ":" + c) + ":" + d) == a + ":" + (b + ":" + (c + ":" + d))
  {
  }

  /** The message stands for one choice of covered fields if and only if no colon makes it
      ambiguous. */
  lemma MessageIsUniqueExactly(t: Task)
    requires Named(t)
    ensures (forall u :: Named(u) && Message(u) == Message(t) ==> Agree(t, u)) <==>
            !Ambiguous(t.id, t.queue, t.ttype)
  {
    if Ambiguous(t.id, t.queue, t.ttype) {
      var u := ColonsMakeItAmbiguous(t);
    } else {
      forall u | Named(u) && Message(u) == Message(t) ensures Agree(t, u) {
        MessageIsInjective(t, u);
      }
    }
  }

  // ---- The lifecycle keeps it ----

  /** Every version in a lineage has the message and the signature of the first one. */
  lemma LineageKeepsMessage(c: Config, l: seq<Version>, i: nat)
    requires Linear(c, l) && i < |l|
    ensures Message(l[i].task) == Message(l[0].task) && l[i].task.signature == l[0].task.signature
  {
    LinearPrefix(c, l, i + 1);
    LineageFacts(c, l[..i + 1]);
  }

  /** In every run, whatever test decides about a message and a signature, it decides the
      same for the stored version of a task as for the version first stored. */
  lemma SignaturesKeepVerifying(c: Config, s: TaskSystem.System, steps: seq<TaskSystem.Step>, id: string,
      verify: (string, string) -> bool)
    requires TaskSystem.Initial(s) && c.queue != "" && id in TaskSystem.After(c, s, steps).store.tasks
    ensures
      var e := TaskSystem.After(c, s, steps);
      id in e.lineage && e.lineage[id] != [] &&
      var t, first := e.store.tasks[id].task, e.lineage[id][0].task;
      verify(Joined(t), t.signature) == verify(Joined(first), first.signature)
  {
    TaskHistory.LinearHistory(c, s, steps, id);
    var l := TaskSystem.After(c, s, steps).lineage[id];
    LineageKeepsMessage(c, l, |l| - 1);
    LineageFacts(c, l);
    LineageFacts(c, l[..1]);
  }

  /** A manual retry keeps the message exactly when it stays in the same queue. */
  lemma RetryKeepsMessageExactly(t: Task, queue: string)
    ensures Joined(RetriedInto(t, queue)) == Joined(t) <==> queue == t.queue
  {
    var u := RetriedInto(t, queue);
    if Joined(u) == Joined(t) {
      SameMessage(u, t);
      assert |queue| == |t.queue|;
      assert queue == Head(u)[|t.id| + 1..][..|queue|] && t.queue == Head(t)[|t.id| + 1..][..|queue|];
    }
  }
}
