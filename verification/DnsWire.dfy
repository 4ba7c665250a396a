/**
 The DNS wire format as far as the resolver reads and writes it: sections 3.1 and 4.1.1 to 4.1.4 of RFC 1035.
 A message is a list of octets. IDNA encoding is not part of this model: domains are given as ASCII octets.
 */
module DnsWire {
  import opened Wrappers

  type Octet = n: nat | n < 256

  const DOT: Octet := 46
  const MAX_LABELS_WALKED := 128
  const MAX_ANSWERS := 20

  datatype Walk = Stop(end: nat) | Go(next: nat)

  /** One step of the walk. An octet has its top two bits set if it is 192 or more; modulo 64 it is the other six. */
  function Look(data: seq<Octet>, offset: nat): Walk {
    if offset >= |data| then Stop(offset)
    else if data[offset] == 0 then Stop(offset + 1)
    else if data[offset] >= 192 then Stop(offset + 2)
    else Go(offset + 1 + data[offset] % 64)
  }

  /** Advances past a name, looking at no more than `n` labels. */
  function Skip(data: seq<Octet>, offset: nat, n: nat): nat
    decreases n, |data|
  {
    if n == 0 then offset
    else match Look(data, offset)
      case Stop(end) => end
      case Go(next) => Skip(data, next, n - 1)
  }

  function SkipName(data: seq<Octet>, offset: nat): nat {
    Skip(data, offset, MAX_LABELS_WALKED)
  }

  method SkipDnsName(data: seq<Octet>, start: nat) returns (offset: nat)
    ensures offset == SkipName(data, start)
  {
    offset := start;
    for i := 0 to MAX_LABELS_WALKED
      invariant Skip(data, offset, MAX_LABELS_WALKED - i) == SkipName(data, start)
    {
      if offset >= |data| {
        return;
      }
      var size := data[offset];
      if size == 0 {
        return offset + 1;
      }
      if size >= 192 {
        return offset + 2;
      }
      offset := offset + 1 + size % 64;
    }
  }

  function U16(data: seq<Octet>, offset: nat): nat
    requires offset + 2 <= |data|
  {
    var high: nat := data[offset];
    high * 256 + data[offset + 1]
  }

  function Decimal(n: nat): string {
    if n < 10 then [Digit(n)] else Decimal(n / 10) + [Digit(n % 10)]
  }

  function Digit(n: nat): char
    requires n < 10
  {
    "0123456789"[n]
  }

  /** An IPv4 address as text. */
  function Dotted(a: seq<Octet>): string
    requires |a| == 4
  {
    Decimal(a[0]) + "." + Decimal(a[1]) + "." + Decimal(a[2]) + "." + Decimal(a[3])
  }

  // ---------- reading an address text ----------

  /** The texts between the dots, the current one begun with `part`. */
  function FieldsFrom(text: string, part: string): (fields: seq<string>)
    ensures fields != []
    decreases |text|
  {
    if text == "" then [part]
    else if text[0] == '.' then [part] + FieldsFrom(text[1..], "")
    else FieldsFrom(text[1..], part + [text[0]])
  }

  predicate IsDigit(c: char) {
    '0' <= c <= '9'
  }

  /** The number that decimal digits stand for, the most significant one first. */
  function Value(digits: string): int {
    if digits == "" then 0
    else
      var n := |digits| - 1;
      10 * Value(digits[..n]) + (digits[n] as int - '0' as int)
  }

  /** `text` is the decimal numeral of `n`, without leading zeros. */
  ghost predicate IsNumeral(text: string, n: nat) {
    && text != "" && (forall i :: 0 <= i < |text| ==> IsDigit(text[i]))
    && Value(text) == n && (text[0] == '0' ==> |text| == 1)
  }

  /** `text` names the octets: one numeral each, in order, with dots between them. */
  ghost predicate Names(text: string, octets: seq<Octet>) {
    var fields := FieldsFrom(text, "");
    |fields| == |octets| && forall i :: 0 <= i < |octets| ==> IsNumeral(fields[i], octets[i])
  }

  lemma {:induction false} DecimalIsNumeral(n: nat)
    ensures IsNumeral(Decimal(n), n) && (n > 0 ==> Decimal(n)[0] != '0')
  {
    if n < 10 {
      assert [Digit(n)][..0] == "";
    } else {
      var front := Decimal(n / 10);
      DecimalIsNumeral(n / 10);
      assert (front + [Digit(n % 10)])[..|front|] == front;
    }
  }

  lemma {:induction false} FieldEnds(field: string, rest: string, part: string)
    requires forall i :: 0 <= i < |field| ==> IsDigit(field[i])
    ensures FieldsFrom(field + rest, part) == FieldsFrom(rest, part + field)
    decreases |field|
  {
    if field == "" {
      assert field + rest == rest && part + field == part;
    } else {
      assert (field + rest)[1..] == field[1..] + rest && part + field == part + [field[0]] + field[1..];
      FieldEnds(field[1..], rest, part + [field[0]]);
    }
  }

  lemma DotEnds(n: nat, rest: string)
    ensures FieldsFrom(Decimal(n) + ("." + rest), "") == [Decimal(n)] + FieldsFrom(rest, "")
    ensures FieldsFrom(Decimal(n), "") == [Decimal(n)]
  {
    DecimalIsNumeral(n);
    FieldEnds(Decimal(n), "." + rest, "");
    FieldEnds(Decimal(n), "", "");
    assert "" + Decimal(n) == Decimal(n) == Decimal(n) + "" && ("." + rest)[1..] == rest;
  }

  lemma FieldsOfDotted(a: seq<Octet>)
    requires |a| == 4
    ensures FieldsFrom(Dotted(a), "") == [Decimal(a[0]), Decimal(a[1]), Decimal(a[2]), Decimal(a[3])]
  {
    var d := Decimal(a[3]);
    var c := Decimal(a[2]) + ("." + d);
    var b := Decimal(a[1]) + ("." + c);
    assert Dotted(a) == Decimal(a[0]) + ("." + b);
    DotEnds(a[0], b);
    DotEnds(a[1], c);
    DotEnds(a[2], d);
    DotEnds(a[3], "");
  }

  /** The text of an address names its four octets, in order. */
  lemma DottedNames(a: seq<Octet>)
    requires |a| == 4
    ensures Names(Dotted(a), a)
  {
    FieldsOfDotted(a);
    DecimalIsNumeral(a[0]);
    DecimalIsNumeral(a[1]);
    DecimalIsNumeral(a[2]);
    DecimalIsNumeral(a[3]);
  }

  // ---------- the parser ----------

  function SkipQuestions(data: seq<Octet>, offset: nat, n: nat): nat
    decreases n
  {
    if n == 0 then offset else SkipQuestions(data, SkipName(data, offset) + 4, n - 1)
  }

  /** One record: its address, if it is an IPv4 one, and where the next record starts. */
  datatype Record = Truncated | Record(address: seq<string>, next: nat)

  function ReadRecord(data: seq<Octet>, offset: nat): Record {
    var at := SkipName(data, offset);
    if at + 10 > |data| then Truncated
    else
      var size := U16(data, at + 8);
      Record(if U16(data, at) == 1 && size == 4 &&
             at + 14 <= |data| then [Dotted(data[at + 10..at + 14])] else [], at + 10 + size)
  }

  /** The addresses of up to `n` answers from `offset` on. */
  function ReadAnswers(data: seq<Octet>, offset: nat, n: nat): seq<string>
    decreases n, |data|
  {
    if n == 0 then []
    else
      match ReadRecord(data, offset)
      case Truncated => []
      case Record(address, next) => address + ReadAnswers(data, next, n - 1)
  }

  function Parse(data: seq<Octet>): seq<string> {
    if |data| < 12 || U16(data, 6) == 0 then []
    else
      var n := if U16(data, 6) < MAX_ANSWERS then U16(data, 6) else MAX_ANSWERS;
      ReadAnswers(data, SkipQuestions(data, 12, U16(data, 4)), n)
  }

  method SkipQuestionSection(data: seq<Octet>, qdcount: nat) returns (offset: nat)
    ensures offset == SkipQuestions(data, 12, qdcount)
  {
    offset := 12;
    for i := 0 to qdcount
      invariant SkipQuestions(data, offset, qdcount - i) == SkipQuestions(data, 12, qdcount)
    {
      offset := SkipDnsName(data, offset);
      offset := offset + 4;
    }
  }

  method ReadOneRecord(data: seq<Octet>, start: nat) returns (record: Record)
    ensures record == ReadRecord(data, start)
  {
    var offset := SkipDnsName(data, start);
    if offset + 10 > |data| {
      return Truncated;
    }
    var rtype, rdlength := U16(data, offset), U16(data, offset + 8);
    offset := offset + 10;
    var address := [];
    if rtype == 1 && rdlength == 4 && offset + 4 <= |data| {
      address := [Dotted(data[offset..offset + 4])];
    }
    return Record(address, offset + rdlength);
  }

  lemma ReadsNext(data: seq<Octet>, offset: nat, n: nat, before: seq<string>)
    requires n > 0 && ReadRecord(data, offset).Record?
    ensures var r := ReadRecord(data, offset);
      before + ReadAnswers(data, offset, n) == before + r.address + ReadAnswers(data, r.next, n - 1)
  {
  }

  method ReadAnswerSection(data: seq<Octet>, start: nat, limit: nat) returns (ips: seq<string>)
    ensures ips == ReadAnswers(data, start, limit)
  {
    ips := [];
    var offset: nat := start;
    assert [] + ReadAnswers(data, start, limit) == ReadAnswers(data, start, limit);
    for i := 0 to limit
      invariant ips + ReadAnswers(data, offset, limit - i) == ReadAnswers(data, start, limit)
    {
      var record := ReadOneRecord(data, offset);
      if record.Truncated? {
        return;
      }
      ReadsNext(data, offset, limit - i, ips);
      ips := ips + record.address;
      offset := record.next;
    }
  }

  /** Four octets from `p` on are an address with the text `ip`. */
  ghost predicate StandsFor(data: seq<Octet>, p: nat, ip: string) {
    p + 4 <= |data| && Names(ip, data[p..p + 4])
  }

  /** Whatever the octets, each text found names four of them. */
  lemma {:induction false} AnswersStandFor(data: seq<Octet>, offset: nat, n: nat)
    ensures forall ip :: ip in ReadAnswers(data, offset, n) ==> exists p :: StandsFor(data, p, ip)
    decreases n
  {
    var r := ReadRecord(data, offset);
    if n > 0 && r.Record? {
      AnswersStandFor(data, r.next, n - 1);
      if r.address != [] {
        var p := SkipName(data, offset) + 10;
        DottedNames(data[p..p + 4]);
        assert StandsFor(data, p, r.address[0]);
      }
    }
  }

  method ParseDnsResponse(data: seq<Octet>) returns (ips: seq<string>)
    ensures ips == Parse(data)
    ensures forall ip :: ip in ips ==> exists p :: StandsFor(data, p, ip)
  {
    if |data| < 12 {
      return [];
    }
    var qdcount, ancount := U16(data, 4), U16(data, 6);
    if ancount == 0 {
      return [];
    }
    var offset := SkipQuestionSection(data, qdcount);
    var limit := if ancount < MAX_ANSWERS then ancount else MAX_ANSWERS;
    ips := ReadAnswerSection(data, offset, limit);
    AnswersStandFor(data, offset, limit);
  }

  // ---------- well-formed messages ----------

  /** A name ends in the root label or in a compression pointer. */
  datatype Ending = Root | Pointer(high: nat, low: Octet)

  datatype Name = Name(labels: seq<seq<Octet>>, ending: Ending)

  datatype Question = Question(qname: Name, fixed: seq<Octet>)

  datatype Answer = Answer(owner: Name, rtype: nat, classAndTtl: seq<Octet>, rdata: seq<Octet>)

  datatype Message = Message(idAndFlags: seq<Octet>, otherCounts: seq<Octet>, questions: seq<Question>,
                             answers: seq<Answer>, rest: seq<Octet>)

  function EncodeU16(n: nat): seq<Octet>
    requires n < 65536
  {
    [n / 256, n % 256]
  }

  ghost predicate LabelsOk(labels: seq<seq<Octet>>) {
    forall i :: 0 <= i < |labels| ==> 1 <= |labels[i]| <= 63
  }

  function LabelsLength(labels: seq<seq<Octet>>): nat {
    if labels == [] then 0 else 1 + |labels[0]| + LabelsLength(labels[1..])
  }

  /** Section 2.3.4 of RFC 1035: labels of at most 63 octets, names of at most 255. */
  ghost predicate NameOk(n: Name) {
    LabelsOk(n.labels) && (n.ending.Pointer? ==> n.ending.high < 64) && LabelsLength(n.labels) + 1 <= 255
  }

  ghost predicate QuestionOk(q: Question) {
    NameOk(q.qname) && |q.fixed| == 4
  }

  ghost predicate AnswerOk(a: Answer) {
    NameOk(a.owner) && a.rtype < 65536 && |a.classAndTtl| == 6 && |a.rdata| < 65536
  }

  ghost predicate MessageOk(m: Message) {
    && |m.idAndFlags| == 4 && |m.otherCounts| == 4 && |m.questions| < 65536 && |m.answers| < 65536
    && (forall q :: q in m.questions ==> QuestionOk(q))
    && (forall a :: a in m.answers ==> AnswerOk(a))
  }

  // Encoders take what follows on the wire as `tail`.

  function PutLabels(labels: seq<seq<Octet>>, tail: seq<Octet>): seq<Octet>
    requires forall i :: 0 <= i < |labels| ==> |labels[i]| < 256
  {
    if labels == [] then tail else [|labels[0]|] + (labels[0] + PutLabels(labels[1..], tail))
  }

  function EndingThen(e: Ending, tail: seq<Octet>): seq<Octet>
    requires e.Pointer? ==> e.high < 64
  {
    match e
    case Root => [0] + tail
    case Pointer(high, low) => [192 + high, low] + tail
  }

  ghost function PutName(n: Name, tail: seq<Octet>): seq<Octet>
    requires NameOk(n)
  {
    PutLabels(n.labels, EndingThen(n.ending, tail))
  }

  ghost function PutQuestions(qs: seq<Question>, tail: seq<Octet>): seq<Octet>
    requires forall q :: q in qs ==> QuestionOk(q)
  {
    if qs == [] then tail
    else
      assert QuestionOk(qs[0]);
      PutName(qs[0].qname, qs[0].fixed + PutQuestions(qs[1..], tail))
  }

  ghost function PutAnswer(a: Answer, tail: seq<Octet>): seq<Octet>
    requires AnswerOk(a)
  {
    PutName(a.owner, EncodeU16(a.rtype) + (a.classAndTtl + (EncodeU16(|a.rdata|) + (a.rdata + tail))))
  }

  ghost function PutAnswers(answers: seq<Answer>, tail: seq<Octet>): seq<Octet>
    requires forall a :: a in answers ==> AnswerOk(a)
  {
    if answers == [] then tail else PutAnswer(answers[0], PutAnswers(answers[1..], tail))
  }

  ghost function Encode(m: Message): seq<Octet>
    requires MessageOk(m)
  {
    m.idAndFlags + (EncodeU16(|m.questions|) + (EncodeU16(|m.answers|) + (m.otherCounts
    + PutQuestions(m.questions, PutAnswers(m.answers, m.rest)))))
  }

  /** The IPv4 address an answer carries, if any. */
  function AddressOf(a: Answer): seq<string> {
    if a.rtype == 1 && |a.rdata| == 4 then [Dotted(a.rdata)] else []
  }

  /** The IPv4 addresses of the first `n` answers, in order. */
  function Addresses(answers: seq<Answer>, n: nat): seq<string> {
    if n == 0 || answers == [] then [] else AddressOf(answers[0]) + Addresses(answers[1..], n - 1)
  }

  /** The answers among the first `n` that carry an IPv4 address, in order. */
  function AddressRecords(answers: seq<Answer>, n: nat): seq<Answer> {
    if n == 0 || answers == [] then []
    else (if answers[0].rtype == 1 && |answers[0].rdata| == 4 then [answers[0]] else [])
         + AddressRecords(answers[1..], n - 1)
  }

  /** `ips` are the texts of the data of `records`, one by one. */
  ghost predicate AllNamed(ips: seq<string>, records: seq<Answer>) {
    |ips| == |records| && forall i :: 0 <= i < |ips| ==> Names(ips[i], records[i].rdata)
  }

  lemma {:induction false} AddressesNameData(answers: seq<Answer>, n: nat)
    ensures AllNamed(Addresses(answers, n), AddressRecords(answers, n))
    decreases n
  {
    if n > 0 && answers != [] {
      AddressesNameData(answers[1..], n - 1);
      if answers[0].rtype == 1 && |answers[0].rdata| == 4 {
        DottedNames(answers[0].rdata);
      }
    }
  }

  // ---------- the parser on well-formed messages ----------

  /** From `offset` to its end, `data` is `s`. */
  ghost predicate From(data: seq<Octet>, offset: nat, s: seq<Octet>) {
    offset <= |data| && data[offset..] == s
  }

  lemma Advance(data: seq<Octet>, offset: nat, a: seq<Octet>, b: seq<Octet>)
    requires From(data, offset, a + b)
    ensures From(data, offset + |a|, b) && data[offset..offset + |a|] == a
    ensures forall i :: 0 <= i < |a| ==> data[offset + i] == a[i]
  {
    var s := data[offset..];
    assert s == a + b;
    assert data[offset + |a|..] == s[|a|..] && data[offset..offset + |a|] == s[..|a|];
    assert forall i :: 0 <= i < |a| ==> s[i] == a[i] && s[i] == data[offset + i];
  }

  lemma {:induction false} FewLabels(labels: seq<seq<Octet>>)
    requires LabelsOk(labels)
    ensures 2 * |labels| <= LabelsLength(labels)
  {
    if labels != [] {
      FewLabels(labels[1..]);
    }
  }

  lemma LooksPastLabel(data: seq<Octet>, offset: nat, l: seq<Octet>, tail: seq<Octet>)
    requires 1 <= |l| <= 63 && From(data, offset, [|l|] + (l + tail))
    ensures Look(data, offset) == Go(offset + 1 + |l|) && From(data, offset + 1 + |l|, tail)
  {
    Advance(data, offset, [|l|], l + tail);
    Advance(data, offset + 1, l, tail);
    assert data[offset + 0] == |l|;
  }

  lemma SkipStops(data: seq<Octet>, offset: nat, n: nat)
    requires n > 0 && Look(data, offset).Stop?
    ensures Skip(data, offset, n) == Look(data, offset).end
  {
  }

  /** From `offset`, `k` sizes in a row lead to `end`. */
  ghost predicate Leads(data: seq<Octet>, offset: nat, k: nat, end: nat)
    decreases k
  {
    if k == 0 then offset == end
    else Look(data, offset).Go? && Leads(data, Look(data, offset).next, k - 1, end)
  }

  lemma {:induction false} SkipFollows(data: seq<Octet>, offset: nat, k: nat, end: nat, left: nat)
    requires Leads(data, offset, k, end)
    ensures Skip(data, offset, k + left) == Skip(data, end, left)
    decreases k
  {
    if k > 0 {
      SkipFollows(data, Look(data, offset).next, k - 1, end, left);
    }
  }

  lemma {:induction false} LabelsLead(data: seq<Octet>, offset: nat, labels: seq<seq<Octet>>, tail: seq<Octet>)
    requires LabelsOk(labels) && From(data, offset, PutLabels(labels, tail))
    ensures Leads(data, offset, |labels|, offset + LabelsLength(labels))
    ensures From(data, offset + LabelsLength(labels), tail)
    decreases |labels|
  {
    if labels != [] {
      LooksPastLabel(data, offset, labels[0], PutLabels(labels[1..], tail));
      LabelsLead(data, offset + 1 + |labels[0]|, labels[1..], tail);
    }
  }

  lemma SkipsLabels(data: seq<Octet>, offset: nat, labels: seq<seq<Octet>>, tail: seq<Octet>, left: nat)
    requires LabelsOk(labels) && From(data, offset, PutLabels(labels, tail))
    ensures Skip(data, offset, |labels| + left) == Skip(data, offset + LabelsLength(labels), left)
    ensures From(data, offset + LabelsLength(labels), tail)
  {
    LabelsLead(data, offset, labels, tail);
    SkipFollows(data, offset, |labels|, offset + LabelsLength(labels), left);
  }

  lemma LooksAtEnding(data: seq<Octet>, offset: nat, e: Ending, tail: seq<Octet>)
    requires (e.Pointer? ==> e.high < 64) && From(data, offset, EndingThen(e, tail))
    ensures Look(data, offset).Stop? && From(data, Look(data, offset).end, tail)
  {
    match e
    case Root =>
      Advance(data, offset, [0], tail);
      assert data[offset + 0] == 0;
    case Pointer(high, low) =>
      Advance(data, offset, [192 + high, low], tail);
      assert data[offset + 0] == 192 + high;
  }

  /** The walk lands right after a name, whether it ends in the root or in a pointer. */
  lemma SkipsName(data: seq<Octet>, offset: nat, name: Name, tail: seq<Octet>)
    requires NameOk(name) && From(data, offset, PutName(name, tail))
    ensures From(data, SkipName(data, offset), tail)
  {
    FewLabels(name.labels);
    SkipsNameWithin(data, offset, name, tail, MAX_LABELS_WALKED);
  }

  lemma SkipsNameWithin(data: seq<Octet>, offset: nat, name: Name, tail: seq<Octet>, n: nat)
    requires NameOk(name) && From(data, offset, PutName(name, tail)) && |name.labels| < n
    ensures From(data, Skip(data, offset, n), tail)
  {
    var end, left := offset + LabelsLength(name.labels), n - |name.labels|;
    SkipsLabels(data, offset, name.labels, EndingThen(name.ending, tail), left);
    LooksAtEnding(data, end, name.ending, tail);
    SkipStops(data, end, left);
  }

  lemma {:induction false} SkipsAllQuestions(data: seq<Octet>, offset: nat, qs: seq<Question>, tail: seq<Octet>)
    requires forall q :: q in qs ==> QuestionOk(q)
    requires From(data, offset, PutQuestions(qs, tail))
    ensures From(data, SkipQuestions(data, offset, |qs|), tail)
    decreases |qs|
  {
    if qs != [] {
      assert QuestionOk(qs[0]);
      SkipsName(data, offset, qs[0].qname, qs[0].fixed + PutQuestions(qs[1..], tail));
      Advance(data, SkipName(data, offset), qs[0].fixed, PutQuestions(qs[1..], tail));
      SkipsAllQuestions(data, SkipName(data, offset) + 4, qs[1..], tail);
    }
  }

  lemma ReadsU16(data: seq<Octet>, offset: nat, n: nat, tail: seq<Octet>)
    requires n < 65536 && From(data, offset, EncodeU16(n) + tail)
    ensures offset + 2 <= |data| && U16(data, offset) == n && From(data, offset + 2, tail)
  {
    Advance(data, offset, EncodeU16(n), tail);
    assert data[offset + 0] == n / 256 && data[offset + 1] == n % 256;
  }

  lemma ReadsFields(data: seq<Octet>, at: nat, a: Answer, tail: seq<Octet>)
    requires AnswerOk(a)
    requires From(data, at, EncodeU16(a.rtype) + (a.classAndTtl + (EncodeU16(|a.rdata|) + (a.rdata + tail))))
    ensures at + 10 + |a.rdata| <= |data|
    ensures U16(data, at) == a.rtype && U16(data, at + 8) == |a.rdata|
    ensures data[at + 10..at + 10 + |a.rdata|] == a.rdata && From(data, at + 10 + |a.rdata|, tail)
  {
    var size := EncodeU16(|a.rdata|) + (a.rdata + tail);
    ReadsU16(data, at, a.rtype, a.classAndTtl + size);
    Advance(data, at + 2, a.classAndTtl, size);
    ReadsU16(data, at + 8, |a.rdata|, a.rdata + tail);
    Advance(data, at + 10, a.rdata, tail);
  }

  /** One answer on the wire: where its name ends, what its fields read, and where the next one starts. */
  lemma ReadsAnswer(data: seq<Octet>, offset: nat, a: Answer, tail: seq<Octet>)
    requires AnswerOk(a) && From(data, offset, PutAnswer(a, tail))
    ensures var at := SkipName(data, offset);
      && at + 10 + |a.rdata| <= |data|
      && U16(data, at) == a.rtype && U16(data, at + 8) == |a.rdata|
      && data[at + 10..at + 10 + |a.rdata|] == a.rdata
      && From(data, at + 10 + |a.rdata|, tail)
  {
    var size := EncodeU16(|a.rdata|) + (a.rdata + tail);
    SkipsName(data, offset, a.owner, EncodeU16(a.rtype) + (a.classAndTtl + size));
    ReadsFields(data, SkipName(data, offset), a, tail);
  }

  lemma RecordOf(data: seq<Octet>, offset: nat, a: Answer)
    requires var at := SkipName(data, offset);
      && at + 10 + |a.rdata| <= |data| && U16(data, at) == a.rtype && U16(data, at + 8) == |a.rdata|
      && data[at + 10..at + 10 + |a.rdata|] == a.rdata
    ensures ReadRecord(data, offset) == Record(AddressOf(a), SkipName(data, offset) + 10 + |a.rdata|)
  {
  }

  lemma ReadsOne(data: seq<Octet>, offset: nat, a: Answer, tail: seq<Octet>)
    requires AnswerOk(a) && From(data, offset, PutAnswer(a, tail))
    ensures ReadRecord(data, offset).Record? && ReadRecord(data, offset).address == AddressOf(a)
    ensures From(data, ReadRecord(data, offset).next, tail)
  {
    ReadsAnswer(data, offset, a, tail);
    RecordOf(data, offset, a);
  }

  lemma {:induction false} ReadsAllAnswers(data: seq<Octet>, offset: nat, answers: seq<Answer>, tail: seq<Octet>,
                                           n: nat)
    requires forall a :: a in answers ==> AnswerOk(a)
    requires From(data, offset, PutAnswers(answers, tail)) && n <= |answers|
    ensures ReadAnswers(data, offset, n) == Addresses(answers, n)
    decreases n
  {
    if n > 0 {
      assert AnswerOk(answers[0]);
      ReadsOne(data, offset, answers[0], PutAnswers(answers[1..], tail));
      ReadsAllAnswers(data, ReadRecord(data, offset).next, answers[1..], tail, n - 1);
    }
  }

  lemma {:induction false} AllAddresses(answers: seq<Answer>, n: nat)
    requires |answers| <= n
    ensures Addresses(answers, n) == Addresses(answers, |answers|)
    decreases n
  {
    if answers != [] {
      AllAddresses(answers[1..], n - 1);
    }
  }

  /** The fixed header: both counts read back, and the questions start right after it. */
  lemma ReadsHeader(m: Message)
    requires MessageOk(m)
    ensures var data := Encode(m);
      && |data| >= 12 && U16(data, 4) == |m.questions| && U16(data, 6) == |m.answers|
      && From(data, 12, PutQuestions(m.questions, PutAnswers(m.answers, m.rest)))
  {
    var data, body := Encode(m), PutQuestions(m.questions, PutAnswers(m.answers, m.rest));
    var counts := EncodeU16(|m.answers|) + (m.otherCounts + body);
    assert data[0..] == data;
    Advance(data, 0, m.idAndFlags, EncodeU16(|m.questions|) + counts);
    ReadsCounts(data, |m.questions|, |m.answers|, m.otherCounts, body);
  }

  lemma ReadsCounts(data: seq<Octet>, questions: nat, answers: nat, otherCounts: seq<Octet>, body: seq<Octet>)
    requires questions < 65536 && answers < 65536 && |otherCounts| == 4
    requires From(data, 4, EncodeU16(questions) + (EncodeU16(answers) + (otherCounts + body)))
    ensures |data| >= 12 && U16(data, 4) == questions && U16(data, 6) == answers && From(data, 12, body)
  {
    ReadsU16(data, 4, questions, EncodeU16(answers) + (otherCounts + body));
    ReadsU16(data, 6, answers, otherCounts + body);
    Advance(data, 8, otherCounts, body);
  }

  /**
   On every well-formed message the parser returns exactly the IPv4 addresses among its first 20 answers, in
   order, whatever its names, its other sections and its trailing octets: the i-th text names the octets of the i-th
   such answer.
   */
  lemma ParsesWellFormed(m: Message)
    requires MessageOk(m)
    ensures Parse(Encode(m)) == Addresses(m.answers, MAX_ANSWERS)
    ensures AllNamed(Parse(Encode(m)), AddressRecords(m.answers, MAX_ANSWERS))
  {
    AddressesNameData(m.answers, MAX_ANSWERS);
    var data, answers := Encode(m), PutAnswers(m.answers, m.rest);
    ReadsHeader(m);
    SkipsAllQuestions(data, 12, m.questions, answers);
    ParseReads(data, |m.questions|, |m.answers|);
    FirstAnswers(data, SkipQuestions(data, 12, |m.questions|), m.answers, m.rest);
  }

  lemma ParseReads(data: seq<Octet>, questions: nat, answers: nat)
    requires |data| >= 12 && U16(data, 4) == questions && U16(data, 6) == answers
    ensures Parse(data) == ReadAnswers(data, SkipQuestions(data, 12, questions), AtMost(answers, MAX_ANSWERS))
  {
  }

  function AtMost(n: nat, limit: nat): nat {
    if n < limit then n else limit
  }

  lemma FirstAnswers(data: seq<Octet>, offset: nat, answers: seq<Answer>, tail: seq<Octet>)
    requires forall a :: a in answers ==> AnswerOk(a)
    requires From(data, offset, PutAnswers(answers, tail))
    ensures ReadAnswers(data, offset, AtMost(|answers|, MAX_ANSWERS)) == Addresses(answers, MAX_ANSWERS)
  {
    ReadsAllAnswers(data, offset, answers, tail, AtMost(|answers|, MAX_ANSWERS));
    if |answers| < MAX_ANSWERS {
      AllAddresses(answers, MAX_ANSWERS);
    }
  }

  // ---------- queries ----------

  /** The dot-separated parts of a domain, empty ones dropped. */
  function Parts(text: seq<Octet>): seq<seq<Octet>> {
    PartsFrom(text, [])
  }

  function PartsFrom(text: seq<Octet>, part: seq<Octet>): seq<seq<Octet>>
    decreases |text|
  {
    if text == [] then Kept(part)
    else if text[0] == DOT then Kept(part) + PartsFrom(text[1..], [])
    else PartsFrom(text[1..], part + [text[0]])
  }

  function Kept(part: seq<Octet>): seq<seq<Octet>> {
    if part == [] then [] else [part]
  }

  /** The parts are never empty and free of dots, whatever the text. */
  lemma {:induction false} PartsAre(text: seq<Octet>, part: seq<Octet>)
    requires DOT !in part
    ensures forall p :: p in PartsFrom(text, part) ==> p != [] && DOT !in p
    decreases |text|
  {
    if text != [] && text[0] == DOT {
      PartsAre(text[1..], []);
    } else if text != [] {
      PartsAre(text[1..], part + [text[0]]);
    }
  }

  function WithDots(labels: seq<seq<Octet>>): seq<Octet> {
    if labels == [] then [] else if |labels| == 1 then labels[0] else labels[0] + ([DOT] + WithDots(labels[1..]))
  }

  lemma {:induction false} ReadsPart(text: seq<Octet>, rest: seq<Octet>, part: seq<Octet>)
    requires DOT !in text
    ensures PartsFrom(text + rest, part) == PartsFrom(rest, part + text)
    decreases |text|
  {
    if text == [] {
      assert text + rest == rest && part + text == part;
    } else {
      assert (text + rest)[1..] == text[1..] + rest && part + text == part + [text[0]] + text[1..];
      ReadsPart(text[1..], rest, part + [text[0]]);
    }
  }

  /** Splitting a dotted name gives its labels back. */
  lemma {:induction false} PartsOfDotted(labels: seq<seq<Octet>>)
    requires forall i :: 0 <= i < |labels| ==> labels[i] != [] && DOT !in labels[i]
    ensures Parts(WithDots(labels)) == labels
  {
    if |labels| == 1 {
      ReadsPart(labels[0], [], []);
      assert labels[0] + [] == labels[0] && [] + labels[0] == labels[0];
    } else if labels != [] {
      var rest := [DOT] + WithDots(labels[1..]);
      ReadsPart(labels[0], rest, []);
      assert [] + labels[0] == labels[0] && rest[1..] == WithDots(labels[1..]);
      PartsOfDotted(labels[1..]);
    }
  }

  const QUERY_HEADER: seq<Octet> := [0x42, 0x42, 0x01, 0x00, 0, 1, 0, 0, 0, 0, 0, 0]

  function Query(labels: seq<seq<Octet>>, qtype: nat): seq<Octet>
    requires qtype < 65536 && forall i :: 0 <= i < |labels| ==> |labels[i]| < 256
  {
    QUERY_HEADER + PutLabels(labels, [0] + (EncodeU16(qtype) + EncodeU16(1)))
  }

  lemma OneQuestion(q: Question)
    requires QuestionOk(q)
    ensures PutQuestions([q], []) == PutName(q.qname, q.fixed)
  {
    assert [q][1..] == [] && q.fixed + [] == q.fixed;
  }

  lemma HeaderCounts(body: seq<Octet>)
    ensures [0x42, 0x42, 0x01, 0x00] + (EncodeU16(1) + (EncodeU16(0) + ([0, 0, 0, 0] + body))) == QUERY_HEADER + body
  {
    assert [0x42, 0x42, 0x01, 0x00] + (EncodeU16(1) + (EncodeU16(0) + [0, 0, 0, 0])) == QUERY_HEADER;
  }

  /** A built query is the wire form of a message with one question, for the name and type asked for, and no answer. */
  lemma QueryIsMessage(labels: seq<seq<Octet>>, qtype: nat)
    requires qtype < 65536 && NameOk(Name(labels, Root))
    ensures var question := Question(Name(labels, Root), EncodeU16(qtype) + EncodeU16(1));
      var m := Message([0x42, 0x42, 0x01, 0x00], [0, 0, 0, 0], [question], [], []);
      MessageOk(m) && Encode(m) == Query(labels, qtype)
  {
    var question := Question(Name(labels, Root), EncodeU16(qtype) + EncodeU16(1));
    assert QuestionOk(question);
    OneQuestion(question);
    HeaderCounts(PutName(question.qname, question.fixed));
  }

  lemma {:induction false} PutLabelsAppend(labels: seq<seq<Octet>>, last: seq<Octet>, tail: seq<Octet>)
    requires |last| < 256 && forall i :: 0 <= i < |labels| ==> |labels[i]| < 256
    ensures PutLabels(labels + [last], tail) == PutLabels(labels, [|last|] + (last + tail))
  {
    if labels == [] {
      assert ([last])[1..] == [];
    } else {
      assert (labels + [last])[1..] == labels[1..] + [last];
      PutLabelsAppend(labels[1..], last, tail);
    }
  }

  lemma {:induction false} PutLabelsConcat(labels: seq<seq<Octet>>, a: seq<Octet>, b: seq<Octet>)
    requires forall i :: 0 <= i < |labels| ==> |labels[i]| < 256
    ensures PutLabels(labels, a + b) == PutLabels(labels, a) + b
  {
    if labels != [] {
      PutLabelsConcat(labels[1..], a, b);
      var front, rest := [|labels[0]|], PutLabels(labels[1..], a);
      assert front + (labels[0] + (rest + b)) == (front + (labels[0] + rest)) + b;
    }
  }

  /** Builds a query; a part of more than 255 octets has no length octet and is an error. */
  method BuildDnsQuery(domain: seq<Octet>, qtype: nat) returns (query: Option<seq<Octet>>)
    requires qtype < 65536
    ensures query.Some? <==> forall i :: 0 <= i < |Parts(domain)| ==> |Parts(domain)[i]| < 256
    ensures query.Some? ==> query.value == Query(Parts(domain), qtype)
  {
    var parts := Parts(domain);
    var qname: seq<Octet> := [];
    for i := 0 to |parts|
      invariant forall j :: 0 <= j < i ==> |parts[j]| < 256
      invariant qname == PutLabels(parts[..i], [])
    {
      if |parts[i]| > 255 {
        return None;
      }
      assert parts[..i + 1] == parts[..i] + [parts[i]];
      PutLabelsAppend(parts[..i], parts[i], []);
      var piece := [|parts[i]|] + (parts[i] + []);
      PutLabelsConcat(parts[..i], [], piece);
      assert [] + piece == piece;
      qname := qname + piece;
    }
    assert parts[..|parts|] == parts;
    var question := [0] + (EncodeU16(qtype) + EncodeU16(1));
    PutLabelsConcat(parts, [], question);
    assert [] + question == question;
    return Some(QUERY_HEADER + (qname + question));
  }

  /** A size that reads as a size or as a pointer. The walk of a label in between depends on its text. */
  ghost predicate Readable(part: seq<Octet>) {
    1 <= |part| <= 63 || 192 <= |part|
  }

  /** The name walk finds the end of a built query exactly when every label is legal and there are at most 127. */
  lemma WalksOwnQuery(labels: seq<seq<Octet>>, qtype: nat)
    requires qtype < 65536 && forall i :: 0 <= i < |labels| ==> |labels[i]| < 256 && Readable(labels[i])
    ensures SkipName(Query(labels, qtype), 12) + 4 == |Query(labels, qtype)| <==>
              LabelsOk(labels) && |labels| < MAX_LABELS_WALKED
  {
    var q, question := Query(labels, qtype), [0] + (EncodeU16(qtype) + EncodeU16(1));
    PutLabelsLength(labels, question);
    assert q[0..] == q;
    Advance(q, 0, QUERY_HEADER, PutLabels(labels, question));
    if LabelsOk(labels) && |labels| <= MAX_LABELS_WALKED {
      WalksLegalLabels(q, 12, labels, question, MAX_LABELS_WALKED - |labels|);
    } else {
      StopsInside(q, labels, question);
    }
  }

  lemma ZeroStops(q: seq<Octet>, at: nat, rest: seq<Octet>, left: nat)
    requires From(q, at, rest) && rest != [] && rest[0] == 0
    ensures Skip(q, at, left) == at + if left > 0 then 1 else 0
  {
    assert q[at..][0] == q[at];
    if left > 0 {
      SkipStops(q, at, left);
    }
  }

  lemma WalksLegalLabels(q: seq<Octet>, start: nat, labels: seq<seq<Octet>>, rest: seq<Octet>, left: nat)
    requires LabelsOk(labels) && From(q, start, PutLabels(labels, rest)) && rest != [] && rest[0] == 0
    ensures Skip(q, start, |labels| + left) == start + LabelsLength(labels) + if left > 0 then 1 else 0
  {
    SkipsLabels(q, start, labels, rest, left);
    ZeroStops(q, start + LabelsLength(labels), rest, left);
  }

  /**
   For sizes between the text decides: of two labels of 64 octets, which the walk takes for empty ones, the first is
   walked over by chance and the second is not.
   */
  lemma TextDecides(lucky: seq<Octet>, unlucky: seq<Octet>, qtype: nat)
    requires qtype < 65536 && |lucky| == |unlucky| == 64
    requires lucky[0] == 63 && unlucky[0] == unlucky[34] == 97
    ensures SkipName(Query([lucky], qtype), 12) + 4 == |Query([lucky], qtype)|
    ensures SkipName(Query([unlucky], qtype), 12) + 4 != |Query([unlucky], qtype)|
  {
    LongQuery(lucky, qtype);
    LongQuery(unlucky, qtype);
    var p, q := Query([lucky], qtype), Query([unlucky], qtype);
    assert Skip(p, 12, 128) == Skip(p, 13, 127) == Skip(p, 77, 126) == 78;
    assert Skip(q, 12, 128) == Skip(q, 13, 127) == Skip(q, 47, 126) == Skip(q, 81, 125) == Skip(q, 83, 124) == 83;
  }

  /** The octets of a query for one label of 64 octets. */
  lemma LongQuery(text: seq<Octet>, qtype: nat)
    requires qtype < 65536 && |text| == 64
    ensures var q := Query([text], qtype);
      |q| == 82 && q[12] == 64 && q[13] == text[0] && q[47] == text[34] && q[77] == 0 && q[81] == 1
  {
    var end := [0] + (EncodeU16(qtype) + EncodeU16(1));
    assert PutLabels([text], end) == [64] + (text + PutLabels([], end));
  }

  lemma {:induction false} PutLabelsLength(labels: seq<seq<Octet>>, tail: seq<Octet>)
    requires forall i :: 0 <= i < |labels| ==> |labels[i]| < 256
    ensures |PutLabels(labels, tail)| == LabelsLength(labels) + |tail|
  {
    if labels != [] {
      PutLabelsLength(labels[1..], tail);
    }
  }

  /** The walk ends too early: it gives up after 128 labels, and takes a label of 192 octets or more for a pointer. */
  lemma StopsInside(q: seq<Octet>, labels: seq<seq<Octet>>, tail: seq<Octet>)
    requires forall i :: 0 <= i < |labels| ==> |labels[i]| < 256 && Readable(labels[i])
    requires From(q, 12, PutLabels(labels, tail)) && !(LabelsOk(labels) && |labels| <= MAX_LABELS_WALKED)
    ensures SkipName(q, 12) < 12 + LabelsLength(labels)
  {
    var k := LegalLabels(labels, MAX_LABELS_WALKED);
    PutLabelsSplit(labels, k, tail);
    var front, left := labels[..k], MAX_LABELS_WALKED - k;
    assert |front| + left == MAX_LABELS_WALKED;
    StopsBehind(q, 12, front, labels[k], PutLabels(labels[k..][1..], tail), left);
    assert LabelsLength(labels[k..]) == 1 + |labels[k]| + LabelsLength(labels[k..][1..]);
  }

  lemma StopsBehind(q: seq<Octet>, start: nat, front: seq<seq<Octet>>, next: seq<Octet>, tail: seq<Octet>, left: nat)
    requires LabelsOk(front) && |next| < 256 && (left > 0 ==> 192 <= |next|)
    requires From(q, start, PutLabels(front, [|next|] + (next + tail)))
    ensures Skip(q, start, |front| + left) == start + LabelsLength(front) + if left > 0 then 2 else 0
  {
    var end := start + LabelsLength(front);
    SkipsLabels(q, start, front, [|next|] + (next + tail), left);
    if left > 0 {
      LongLabelStops(q, end, next, tail, left);
    } else {
      assert Skip(q, end, 0) == end;
    }
  }

  lemma LongLabelStops(q: seq<Octet>, at: nat, part: seq<Octet>, tail: seq<Octet>, n: nat)
    requires 192 <= |part| < 256 && n > 0 && From(q, at, [|part|] + (part + tail))
    ensures Skip(q, at, n) == at + 2
  {
    Advance(q, at, [|part|], part + tail);
    assert q[at + 0] == |part|;
    SkipStops(q, at, n);
  }

  /** How many labels, `most` or fewer, come before the first one that is too long. */
  function LegalLabels(labels: seq<seq<Octet>>, most: nat): (k: nat)
    requires forall i :: 0 <= i < |labels| ==> |labels[i]| < 256 && Readable(labels[i])
    ensures k <= most && k <= |labels| && LabelsOk(labels[..k]) && (k == |labels| ==> LabelsOk(labels))
    ensures k < most && k < |labels| ==> |labels[k]| >= 192
  {
    if labels == [] || most == 0 || |labels[0]| >= 192 then 0
    else
      assert Readable(labels[0]);
      var k := 1 + LegalLabels(labels[1..], most - 1);
      assert forall i :: 0 < i < k ==> labels[i] == labels[1..][..k - 1][i - 1];
      k
  }

  lemma {:induction false} PutLabelsSplit(labels: seq<seq<Octet>>, k: nat, tail: seq<Octet>)
    requires k <= |labels| && forall i :: 0 <= i < |labels| ==> |labels[i]| < 256
    ensures PutLabels(labels, tail) == PutLabels(labels[..k], PutLabels(labels[k..], tail))
    ensures LabelsLength(labels) == LabelsLength(labels[..k]) + LabelsLength(labels[k..])
  {
    if k == 0 {
      assert labels[..0] == [] && labels[0..] == labels;
    } else {
      PutLabelsSplit(labels[1..], k - 1, tail);
      assert labels[..k][1..] == labels[1..][..k - 1] && labels[1..][k - 1..] == labels[k..];
    }
  }
}
