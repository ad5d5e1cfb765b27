// What the values of a Responses stream stand for: items, usage counts, indexes.
module ResponsesItems {
  import opened Basics
  import opened CanonicalJson
  import opened Conversation
  import opened ModelStep
  import opened Responses

  // ---- Items ----

  predicate IsPart(v: Json, kind: string, text: string) {
    Str(v, "type") == Some(kind) && Str(v, "text") == Some(text)
  }

  // A provider value describes a message, a call or a reasoning item: its own id and text, in order.
  ghost predicate Describes(v: Json, x: Item, parse: string -> Option<Json>) {
    && Str(v, "id") == Some(x.id)
    && match x
       case AssistantMessage(_, content, phase) =>
         && Str(v, "type") == Some("message") && Str(v, "role") == Some("assistant") && At(v, "content").Array?
         && TextsAre(At(v, "content").elements, content)
         && (Str(v, "phase") == Some("commentary") ==> phase == Commentary)
         && (Str(v, "phase") == Some("final_answer") || Str(v, "phase").None? ==> phase == FinalAnswer)
         && (Str(v, "phase").Some? ==> Str(v, "phase").value in {"commentary", "final_answer"})
       case ToolCall(_, callId, namespace, name, arguments, raw) =>
         && Str(v, "type") == Some("function_call") && Str(v, "call_id") == Some(callId) && Str(v, "name") == Some(name)
         && Str(v, "namespace") == namespace && Str(v, "arguments") == Some(raw) && arguments == parse(raw)
       case Reasoning(_, thinking, signature, encrypted) =>
         && Str(v, "type") == Some("reasoning") && At(v, "summary").Array?
         && (At(v, "content").Array? ==> At(v, "content").elements == [])
         && signature == None && encrypted == Str(v, "encrypted_content")
         && exists lines :: LinesAre(At(v, "summary").elements, lines) && thinking == JoinLines(lines)
       case _ => false
  }

  ghost predicate TextsAre(parts: seq<Json>, content: seq<Content>) {
    |parts| == |content|
    && forall k | 0 <= k < |parts| :: content[k].Text? && IsPart(parts[k], "output_text", content[k].text)
  }

  ghost predicate LinesAre(parts: seq<Json>, lines: seq<string>) {
    |parts| == |lines| && forall k | 0 <= k < |parts| :: IsPart(parts[k], "summary_text", lines[k])
  }

  lemma {:induction false} TextsMeaning(parts: seq<Json>, content: seq<Content>)
    ensures OutputTexts(parts) == Some(content) <==> TextsAre(parts, content)
  {
    if parts != [] && content != [] {
      TextsMeaning(parts[1..], content[1..]);
      assert content == [content[0]] + content[1..];
      if content[0].Text? && IsPart(parts[0], "output_text", content[0].text) && TextsAre(parts[1..], content[1..]) {
        forall k | 1 <= k < |parts|
          ensures content[k].Text? && IsPart(parts[k], "output_text", content[k].text)
        {
          assert parts[k] == parts[1..][k - 1] && content[k] == content[1..][k - 1];
        }
      }
    }
  }

  lemma {:induction false} LinesMeaning(parts: seq<Json>, lines: seq<string>)
    ensures Summary(parts) == Some(lines) <==> LinesAre(parts, lines)
  {
    if parts != [] && lines != [] {
      LinesMeaning(parts[1..], lines[1..]);
      assert lines == [lines[0]] + lines[1..];
      if IsPart(parts[0], "summary_text", lines[0]) && LinesAre(parts[1..], lines[1..]) {
        forall k | 1 <= k < |parts| ensures IsPart(parts[k], "summary_text", lines[k]) {
          assert parts[k] == parts[1..][k - 1] && lines[k] == lines[1..][k - 1];
        }
      }
    }
  }

  // Lines are joined in order, with one newline between two of them.
  lemma {:induction false} LinesJoin(a: seq<string>, b: seq<string>)
    requires a != [] && b != []
    ensures JoinLines(a + b) == JoinLines(a) + "\n" + JoinLines(b)
    ensures |a| == 1 ==> JoinLines(a) == a[0]
    ensures JoinLines([]) == ""
  {
    assert (a + b)[1..] == a[1..] + b;
    if |a| > 1 {
      LinesJoin(a[1..], b);
      var rest := JoinLines(a[1..]);
      assert a[0] + "\n" + (rest + "\n" + JoinLines(b)) == a[0] + "\n" + rest + "\n" + JoinLines(b);
    } else {
      assert a[1..] + b == b;
    }
  }

  // An item is completed with exactly what the provider's value describes, and a value that describes no
  // item completes none.
  lemma CanonicalDescribes(v: Json, x: Item, parse: string -> Option<Json>)
    ensures CanonicalItem(v, parse) == Some(x) <==> Describes(v, x, parse)
  {
    match x
    case AssistantMessage(_, content, _) =>
      if At(v, "content").Array? { TextsMeaning(At(v, "content").elements, content); }
    case Reasoning(_, thinking, _, _) =>
      if At(v, "summary").Array? {
        var parts := At(v, "summary").elements;
        forall lines ensures Summary(parts) == Some(lines) <==> LinesAre(parts, lines) { LinesMeaning(parts, lines); }
        assert Summary(parts).Some? ==> LinesAre(parts, Summary(parts).value);
      }
    case _ =>
  }

  // ---- Numbers ----

  function Decimal(n: nat): string {
    (if n < 10 then "" else Decimal(n / 10)) + ["0123456789"[n % 10]]
  }

  lemma {:induction false} ReadsDigits(a: string, b: string, value: nat)
    ensures ParseNat(a + b, value) == match ParseNat(a, value) case Some(n) => ParseNat(b, n) case None => None
    decreases |a|
  {
    if a == "" {
      assert a + b == b;
    } else {
      assert (a + b)[1..] == a[1..] + b && (a + b)[0] == a[0];
      if '0' <= a[0] <= '9' { ReadsDigits(a[1..], b, 10 * value + (a[0] as int - '0' as int)); }
    }
  }

  lemma {:induction false} ReadsDecimal(n: nat)
    ensures Decimal(n) != "" && ParseNat(Decimal(n), 0) == Some(n)
  {
    var before, digit := if n < 10 then "" else Decimal(n / 10), ["0123456789"[n % 10]];
    if n >= 10 { ReadsDecimal(n / 10); }
    ReadsDigits(before, digit, 0);
    assert digit[1..] == "";
  }

  // A count or an index is read as the number it was written for, while it fits 64 bits.
  lemma IndexReads(n: nat)
    ensures AsIndex(Number(Decimal(n))) == if n <= LAST_SEQ then Some(n) else None
  {
    ReadsDecimal(n);
  }

  function UsageValue(u: Usage): Json {
    Object([
      Field("input_tokens", Number(Decimal(u.inputTokens))),
      Field("output_tokens", Number(Decimal(u.outputTokens))),
      Field("output_tokens_details", Object([Field("reasoning_tokens", Number(Decimal(u.reasoningTokens)))])),
      Field("input_tokens_details", Object([Field("cached_tokens", Number(Decimal(u.cacheRead)))]))])
  }

  // So are the four counts of a response's usage; a count that is missing is 0.
  lemma UsageReads(u: Usage)
    requires u.inputTokens <= LAST_SEQ && u.outputTokens <= LAST_SEQ
    requires u.reasoningTokens <= LAST_SEQ && u.cacheRead <= LAST_SEQ
    ensures UsageOf(UsageValue(u)) == u && UsageOf(Object([])) == Usage(0, 0, 0, 0)
  {
    IndexReads(u.inputTokens);
    IndexReads(u.outputTokens);
    IndexReads(u.reasoningTokens);
    IndexReads(u.cacheRead);
    var f := UsageValue(u).fields;
    assert f == [f[0], f[1], f[2], f[3]];
    forall key | key == f[0].key || key == f[1].key || key == f[2].key || key == f[3].key
      ensures At(UsageValue(u), key) == Looked(f[0], f[1], f[2], f[3], key)
    {
      FourFields(f[0], f[1], f[2], f[3], key);
    }
    AtFirst(Field("reasoning_tokens", Number(Decimal(u.reasoningTokens))), [], "reasoning_tokens");
    AtFirst(Field("cached_tokens", Number(Decimal(u.cacheRead))), [], "cached_tokens");
  }

  function Looked(a: Field, b: Field, c: Field, d: Field, key: string): Json {
    if key == a.key then a.value else if key == b.key then b.value
    else if key == c.key then c.value else if key == d.key then d.value else Null
  }

  lemma FourFields(a: Field, b: Field, c: Field, d: Field, key: string)
    ensures At(Object([a, b, c, d]), key) == Looked(a, b, c, d, key)
  {
    assert [a, b, c, d] == [a] + [b, c, d] && [b, c, d] == [b] + [c, d] && [c, d] == [c] + [d] && [d] == [d] + [];
    AtFirst(a, [b, c, d], key);
    AtFirst(b, [c, d], key);
    AtFirst(c, [d], key);
    AtFirst(d, [], key);
  }

  lemma AtFirst(f: Field, rest: seq<Field>, key: string)
    ensures At(Object([f] + rest), key) == if f.key == key then f.value else At(Object(rest), key)
    ensures At(Object([]), key) == Null
  {
    assert ([f] + rest)[1..] == rest;
  }
}
