/** Committable results within the connected protocol's size limits
    (`connected/result_budget.py`). */
module ResultBudget {
  import opened Text
  import opened Json

  const REQUEST_LIMIT: nat := 1024 * 1024
  const FIELD_LIMIT: nat := 1024 * 1024

  datatype Status = Succeeded | Failed | Cancelled

  /** The parts of a parsed message the result commit uses. */
  datatype Message = Message(id: string, operation: string, leaseId: string, leaseToken: string)

  datatype HandlerResult = HandlerResult(status: Status, schema: string, payload: Json, evidence: Json)

  /** `parse_connected_message` accepts UUID lease ids and tokens of 32 to 256 characters. */
  predicate Parsed(m: Message) { |m.leaseId| == 36 && 32 <= |m.leaseToken| <= 256 }

  datatype Fit = Fits | TooLarge | Invalid

  function Size(s: Stream): nat { Utf8Length(Concat(s.chunks)) }

  /** What `_fits_json` decides: the size seen before the stream is over or something raises,
      where a chunk that cannot be encoded still counts one byte for each of its code points. */
  function FitOf(s: Stream, maximum: nat): Fit {
    if Size(s) > maximum || (s.end.Unencodable? && Size(s) + s.end.points > maximum) then TooLarge
    else if s.end.Over? then Fits
    else Invalid
  }

  /** The chunked check with its two early exits. `Invalid` is an exception of the encoder, or
      of UTF-8 for a chunk with a lone surrogate. */
  method FitsJson(s: Stream, maximum: nat) returns (fit: Fit)
    ensures fit == FitOf(s, maximum)
  {
    var remaining: int, pending := maximum, s.chunks;
    while pending != []
      invariant 0 <= remaining
      invariant remaining - Utf8Length(Concat(pending)) == maximum - Size(s)
      decreases |pending|
    {
      var chunk := pending[0];
      Utf8LengthOfConcat(chunk, Concat(pending[1..]));
      if |chunk| > remaining { return TooLarge; }
      remaining := remaining - Utf8Length(chunk);
      if remaining < 0 { return TooLarge; }
      pending := pending[1..];
    }
    match s.end
    case Over => return Fits;
    case Raises => return Invalid;
    case Unencodable(points) => return if points > remaining then TooLarge else Invalid;
  }

  lemma {:induction false} SizeOfConcat(a: seq<string>, b: seq<string>)
    ensures Utf8Length(Concat(a + b)) == Utf8Length(Concat(a)) + Utf8Length(Concat(b))
    decreases a
  {
    if a == [] {
      assert a + b == b;
    } else {
      assert (a + b)[1..] == a[1..] + b;
      SizeOfConcat(a[1..], b);
      Utf8LengthOfConcat(a[0], Concat(a[1..]));
      Utf8LengthOfConcat(a[0], Concat(a[1..] + b));
    }
  }

  // ------------------------------------------------------------ the commit body

  function StatusText(status: Status): string {
    match status
    case Succeeded => "succeeded"
    case Failed => "failed"
    case Cancelled => "cancelled"
  }

  function Body(m: Message, r: HandlerResult): Json {
    Obj([Field("lease_id", Str(m.leaseId)), Field("lease_token", Str(m.leaseToken)),
         Field("terminal_status", Str(StatusText(r.status))), Field("result_schema", Str(r.schema)),
         Field("result_payload", r.payload), Field("evidence_payload", r.evidence)])
  }

  /** The three checks in order; the first that does not fit decides the code. */
  function BudgetOf(m: Message, r: HandlerResult): Fit {
    var payload := FitOf(Encode(r.payload, true), FIELD_LIMIT);
    if !payload.Fits? then payload
    else
      var evidence := FitOf(Encode(r.evidence, true), FIELD_LIMIT);
      if !evidence.Fits? then evidence
      else FitOf(Encode(Body(m, r), false), REQUEST_LIMIT)
  }

  const WORKFLOW_OPERATIONS := {"workflow.execute", "workflow.resume", "workflow.cancel"}

  function Code(fit: Fit): string {
    if fit.TooLarge? then "connected_result_too_large" else "connected_result_invalid"
  }

  function ErrorType(fit: Fit): string {
    if fit.TooLarge? then "ConnectedResultTooLarge" else "ConnectedResultInvalid"
  }

  function Detail(fit: Fit): string {
    if fit.TooLarge? then "Handler may have completed, but its result" + " exceeds the connected protocol limit."
    else "Handler may have completed, but its result" + " is not valid connected protocol JSON."
  }

  /** The failure reported instead of a result that cannot be committed. */
  function Failure(m: Message, code: string, errorType: string, detail: string): HandlerResult {
    if m.operation in WORKFLOW_OPERATIONS then
      HandlerResult(Failed, "atellagent.connected.workflow-outcome.v1",
        Obj([Field("protocol_version", Str("v1")), Field("outcome", Str("failed")),
             Field("error", Obj([Field("code", Str(code)), Field("detail", Str(detail))]))]),
        Obj([]))
    else
      HandlerResult(Failed, "atellagent.connected.error.v1",
        Obj([Field("error_type", Str(errorType)), Field("code", Str(code)), Field("detail", Str(detail))]),
        Obj([]))
  }

  function Fallback(m: Message, fit: Fit): HandlerResult {
    Failure(m, Code(fit), ErrorType(fit), Detail(fit))
  }

  /** The result that is reported for a handler's result. */
  function Committable(m: Message, r: HandlerResult): HandlerResult {
    var fit := BudgetOf(m, r);
    if fit.Fits? then r else Fallback(m, fit)
  }

  /** `build_result_commit_payload`. */
  function BuildResultCommitPayload(m: Message, r: HandlerResult): Json { Body(m, Committable(m, r)) }

  // --------------------------------------------------- the size of plain values

  /** Objects of strings, which is all a fallback is made of. */
  predicate Plain(a: Json) {
    match a
    case Str(_) => true
    case Obj(fields) => forall i :: 0 <= i < |fields| ==> Plain(fields[i].value)
    case _ => false
  }

  /** An upper bound on the encoded size of a plain value, in either encoding. */
  function Weight(a: Json): nat {
    match a
    case Str(text) => 12 * |text| + 2
    case Obj(fields) => 2 + FieldsWeight(fields)
    case _ => 0
  }

  function FieldsWeight(fields: seq<Field>): nat {
    if fields == [] then 0
    else 12 * |fields[0].key| + 4 + Weight(fields[0].value) + FieldsWeight(fields[1..])
  }

  lemma EncodedCharSize(c: char, ascii: bool)
    ensures Utf8Length(EncodeChar(c, ascii)) <= 12
  {
    var e := EncodeChar(c, ascii);
    if |e| > 2 { AsciiSize(e); }
  }

  lemma {:induction false} AsciiSize(s: string)
    requires Ascii(s)
    ensures Utf8Length(s) == |s|
    decreases s
  {
    if s != "" { AsciiSize(s[1..]); }
  }

  lemma {:induction false} EncodedCharsSize(s: string, ascii: bool)
    ensures Utf8Length(EncodeChars(s, ascii)) <= 12 * |s|
    decreases s
  {
    if s != "" {
      EncodedCharSize(s[0], ascii);
      EncodedCharsSize(s[1..], ascii);
      Utf8LengthOfConcat(EncodeChar(s[0], ascii), EncodeChars(s[1..], ascii));
    }
  }

  lemma EncodedTextSize(s: string, ascii: bool)
    ensures Utf8Length(EncodeText(s, ascii)) <= 12 * |s| + 2
  {
    EncodedCharsSize(s, ascii);
    Utf8LengthOfConcat("\"" + EncodeChars(s, ascii), "\"");
    Utf8LengthOfConcat("\"", EncodeChars(s, ascii));
  }

  lemma SizeOfYield(chunk: string)
    ensures Size(Yield(chunk)) == Utf8Length(chunk)
  {
    assert Concat([chunk]) == chunk + "" == chunk;
  }

  lemma SizeOfThen(a: Stream, b: Stream)
    ensures a.end.Over? ==> Size(Then(a, b)) == Size(a) + Size(b) && Then(a, b).end == b.end
  {
    SizeOfConcat(a.chunks, b.chunks);
  }

  lemma {:induction false} InsertKeepsWeight(f: Field, sorted: seq<Field>)
    ensures FieldsWeight(InsertField(f, sorted)) == FieldsWeight([f] + sorted)
    decreases sorted
  {
    assert ([f] + sorted)[1..] == sorted;
    if sorted != [] && !Before(f.key, sorted[0].key) {
      InsertKeepsWeight(f, sorted[1..]);
      assert ([f] + sorted[1..])[1..] == sorted[1..];
      assert ([sorted[0]] + InsertField(f, sorted[1..]))[1..] == InsertField(f, sorted[1..]);
    }
  }

  lemma {:induction false} SortKeepsWeight(fields: seq<Field>)
    ensures FieldsWeight(SortFields(fields)) == FieldsWeight(fields)
    decreases fields
  {
    if fields != [] {
      SortKeepsWeight(fields[1..]);
      InsertKeepsWeight(fields[0], SortFields(fields[1..]));
      assert ([fields[0]] + SortFields(fields[1..]))[1..] == SortFields(fields[1..]);
    }
  }

  lemma {:induction false} PlainSize(a: Json, ascii: bool)
    requires Plain(a)
    ensures Encode(a, ascii).end.Over? && Size(Encode(a, ascii)) <= Weight(a)
    decreases a, 1
  {
    match a
    case Str(text) =>
      EncodedTextSize(text, ascii);
      SizeOfYield(EncodeText(text, ascii));
    case Obj(fields) =>
      var order := if ascii then SortFields(fields) else fields;
      forall f | f in order ensures f in fields { assert f in multiset(order); }
      if ascii { SortKeepsWeight(fields); }
      PlainFieldsSize(a, order, ascii);
      var inner := EncodeFields(a, order, ascii);
      SizeOfYield("{");
      SizeOfYield("}");
      SizeOfThen(inner, Yield("}"));
      SizeOfThen(Yield("{"), Then(inner, Yield("}")));
  }

  lemma {:induction false} PlainFieldsSize(a: Json, order: seq<Field>, ascii: bool)
    requires Plain(a) && a.Obj? && forall f :: f in order ==> f in a.fields
    ensures EncodeFields(a, order, ascii).end.Over? && Size(EncodeFields(a, order, ascii)) <= FieldsWeight(order)
    decreases a, 0, |order|
  {
    if order != [] {
      var f := order[0];
      FieldIsSmaller(a, f);
      PlainSize(f.value, ascii);
      PlainFieldsSize(a, order[1..], ascii);
      var name, comma := EncodeText(f.key, ascii) + ":", if |order| == 1 then "" else ",";
      EncodedTextSize(f.key, ascii);
      Utf8LengthOfConcat(EncodeText(f.key, ascii), ":");
      SizeOfYield(name);
      SizeOfYield(comma);
      SizeOfThen(Yield(name), Encode(f.value, ascii));
      SizeOfThen(Yield(comma), EncodeFields(a, order[1..], ascii));
      SizeOfThen(Then(Yield(name), Encode(f.value, ascii)), Then(Yield(comma), EncodeFields(a, order[1..], ascii)));
    }
  }

  // --------------------------------------------------------------- the theorems

  lemma OneFieldWeight(a: Field)
    ensures FieldsWeight([a]) == 12 * |a.key| + 4 + Weight(a.value)
  {
    assert FieldsWeight([a][1..]) == 0;
  }

  lemma ThreeFieldsWeight(a: Field, b: Field, c: Field)
    ensures FieldsWeight([a, b, c]) == 12 * (|a.key| + |b.key| + |c.key|) + 12
                                       + Weight(a.value) + Weight(b.value) + Weight(c.value)
    ensures FieldsWeight([a, b]) == 12 * (|a.key| + |b.key|) + 8 + Weight(a.value) + Weight(b.value)
  {
    OneFieldWeight(b);
    OneFieldWeight(c);
    assert [b, c][1..] == [c] && [a, b][1..] == [b];
    assert FieldsWeight([b, c]) == 12 * |b.key| + 4 + Weight(b.value) + FieldsWeight([c]);
    assert [a, b, c][1..] == [b, c];
  }

  lemma FallbackTextsAreShort(fit: Fit)
    ensures |Code(fit)| <= 32 && |ErrorType(fit)| <= 32 && |Detail(fit)| <= 96
  {
  }

  lemma WorkflowErrorIsSmall(version: string, outcome: string, code: string, detail: string)
    requires |version| <= 8 && |outcome| <= 8 && |code| <= 32 && |detail| <= 96
    ensures Weight(Obj([Field("protocol_version", Str(version)), Field("outcome", Str(outcome)),
                        Field("error", Obj([Field("code", Str(code)), Field("detail", Str(detail))]))])) <= 4000
  {
    var first, second := Field("code", Str(code)), Field("detail", Str(detail));
    ThreeFieldsWeight(first, second, second);
    ThreeFieldsWeight(Field("protocol_version", Str(version)), Field("outcome", Str(outcome)), Field("error", Obj([first, second])));
  }

  lemma PlainErrorIsSmall(errorType: string, code: string, detail: string)
    requires |errorType| <= 32 && |code| <= 32 && |detail| <= 96
    ensures Weight(Obj([Field("error_type", Str(errorType)), Field("code", Str(code)), Field("detail", Str(detail))])) <= 4000
  {
    ThreeFieldsWeight(Field("error_type", Str(errorType)), Field("code", Str(code)), Field("detail", Str(detail)));
  }

  lemma FailureIsSmall(m: Message, code: string, errorType: string, detail: string)
    requires |code| <= 32 && |errorType| <= 32 && |detail| <= 96
    ensures var r := Failure(m, code, errorType, detail);
      && Plain(r.payload) && Plain(r.evidence) && |r.schema| <= 64
      && Weight(r.payload) <= 4000 && Weight(r.evidence) == 2
  {
    if m.operation in WORKFLOW_OPERATIONS {
      WorkflowErrorIsSmall("v1", "failed", code, detail);
    } else {
      PlainErrorIsSmall(errorType, code, detail);
    }
  }

  lemma SixFieldsWeight(a: Field, b: Field, c: Field, d: Field, e: Field, f: Field)
    ensures FieldsWeight([a, b, c, d, e, f])
         == FieldsWeight([a]) + FieldsWeight([b]) + FieldsWeight([c]) + FieldsWeight([d]) + FieldsWeight([e]) + FieldsWeight([f])
  {
    FieldsWeightOfConcat([a, b, c, d, e], [f]);
    FieldsWeightOfConcat([a, b, c, d], [e]);
    FieldsWeightOfConcat([a, b, c], [d]);
    FieldsWeightOfConcat([a, b], [c]);
    FieldsWeightOfConcat([a], [b]);
    assert [a] + [b] == [a, b] && [a, b] + [c] == [a, b, c] && [a, b, c] + [d] == [a, b, c, d];
    assert [a, b, c, d] + [e] == [a, b, c, d, e] && [a, b, c, d, e] + [f] == [a, b, c, d, e, f];
  }

  lemma {:induction false} FieldsWeightOfConcat(a: seq<Field>, b: seq<Field>)
    ensures FieldsWeight(a + b) == FieldsWeight(a) + FieldsWeight(b)
    decreases a
  {
    if a == [] {
      assert a + b == b;
    } else {
      FieldsWeightOfConcat(a[1..], b);
      assert (a + b)[1..] == a[1..] + b;
    }
  }

  lemma TextFieldWeight(key: string, text: string, bound: nat)
    requires |key| <= 16 && |text| <= bound
    ensures FieldsWeight([Field(key, Str(text))]) <= 12 * 16 + 6 + 12 * bound
  {
    OneFieldWeight(Field(key, Str(text)));
  }

  lemma BodyWeight(m: Message, r: HandlerResult)
    requires Parsed(m) && |r.schema| <= 64
    ensures Weight(Body(m, r)) <= 8000 + Weight(r.payload) + Weight(r.evidence)
  {
    assert |StatusText(r.status)| <= 9;
    TextFieldWeight("lease_id", m.leaseId, 36);
    TextFieldWeight("lease_token", m.leaseToken, 256);
    TextFieldWeight("terminal_status", StatusText(r.status), 9);
    TextFieldWeight("result_schema", r.schema, 64);
    OneFieldWeight(Field("result_payload", r.payload));
    OneFieldWeight(Field("evidence_payload", r.evidence));
    SixFieldsWeight(Field("lease_id", Str(m.leaseId)), Field("lease_token", Str(m.leaseToken)),
      Field("terminal_status", Str(StatusText(r.status))), Field("result_schema", Str(r.schema)),
      Field("result_payload", r.payload), Field("evidence_payload", r.evidence));
  }

  lemma PlainBody(m: Message, r: HandlerResult)
    requires Plain(r.payload) && Plain(r.evidence)
    ensures Plain(Body(m, r))
  {
  }

  lemma PlainFits(a: Json, ascii: bool, maximum: nat)
    requires Plain(a) && Weight(a) <= maximum
    ensures FitOf(Encode(a, ascii), maximum) == Fits
  {
    PlainSize(a, ascii);
  }

  lemma SmallResultFits(m: Message, r: HandlerResult)
    requires Parsed(m) && |r.schema| <= 64
    requires Plain(r.payload) && Plain(r.evidence) && Weight(r.payload) <= 4000 && Weight(r.evidence) <= 4000
    ensures BudgetOf(m, r) == Fits
  {
    BodyWeight(m, r);
    PlainBody(m, r);
    PlainFits(r.payload, true, FIELD_LIMIT);
    PlainFits(r.evidence, true, FIELD_LIMIT);
    PlainFits(Body(m, r), false, REQUEST_LIMIT);
  }

  /** Every fallback meets all three limits, whatever characters the lease token holds. */
  lemma FallbackFits(m: Message, fit: Fit)
    requires Parsed(m)
    ensures BudgetOf(m, Fallback(m, fit)) == Fits
  {
    FallbackTextsAreShort(fit);
    FailureIsSmall(m, Code(fit), ErrorType(fit), Detail(fit));
    SmallResultFits(m, Fallback(m, fit));
  }

  lemma SameBodySameBudget(m: Message, a: HandlerResult, b: HandlerResult)
    ensures Body(m, a) == Body(m, b) ==> BudgetOf(m, a) == BudgetOf(m, b)
  {
    if Body(m, a) == Body(m, b) {
      var x, y := Body(m, a).fields, Body(m, b).fields;
      assert x[4].value == a.payload && y[4].value == b.payload;
      assert x[5].value == a.evidence && y[5].value == b.evidence;
    }
  }

  /** Whatever the handler returned, what is sent encodes, and both fields and the whole
      request are within their limits. */
  lemma CommitPayloadWithinLimits(m: Message, r: HandlerResult)
    requires Parsed(m)
    ensures var sent := Committable(m, r); var body := BuildResultCommitPayload(m, r);
      && body == Body(m, sent)
      && FitOf(Encode(sent.payload, true), 1048576) == Fits
      && FitOf(Encode(sent.evidence, true), 1048576) == Fits
      && FitOf(Encode(body, false), 1048576) == Fits
  {
    var fit := BudgetOf(m, r);
    if !fit.Fits? { FallbackFits(m, fit); }
  }

  /** The handler's own result is sent exactly when it fits; otherwise a failure is, and
      building again from that failure changes nothing. */
  lemma FittingResultsAreKept(m: Message, r: HandlerResult)
    requires Parsed(m)
    ensures BuildResultCommitPayload(m, r) == Body(m, r) <==> BudgetOf(m, r) == Fits
    ensures BudgetOf(m, r) != Fits ==> Committable(m, r).status == Failed
    ensures Committable(m, Committable(m, r)) == Committable(m, r)
  {
    var sent := Committable(m, r);
    SentResultFits(m, r);
    SameBodySameBudget(m, sent, r);
  }

  lemma SentResultFits(m: Message, r: HandlerResult)
    requires Parsed(m)
    ensures BudgetOf(m, Committable(m, r)) == Fits
    ensures BudgetOf(m, r) != Fits ==> Committable(m, r).status == Failed
  {
    var fit := BudgetOf(m, r);
    if !fit.Fits? { FallbackFits(m, fit); }
  }

  // ------------------------------------------------------- what is in the payload

  function StatusWord(status: Status): string {
    if status.Succeeded? then "succeeded" else if status.Failed? then "failed" else "cancelled"
  }

  /** A commit body with these six settings and no other, for the lease of the message. */
  predicate BodyFor(body: Json, m: Message, status: string, schema: string, payload: Json, evidence: Json) {
    && body.Obj? && DistinctKeys(body.fields) && |body.fields| == 6
    && Get(body.fields, "lease_id", Null) == Str(m.leaseId)
    && Get(body.fields, "lease_token", Null) == Str(m.leaseToken)
    && Get(body.fields, "terminal_status", Null) == Str(status)
    && Get(body.fields, "result_schema", Null) == Str(schema)
    && Get(body.fields, "result_payload", Null) == payload
    && Get(body.fields, "evidence_payload", Null) == evidence
    && HasKey(body.fields, "lease_id") && HasKey(body.fields, "lease_token") && HasKey(body.fields, "terminal_status")
    && HasKey(body.fields, "result_schema") && HasKey(body.fields, "result_payload") && HasKey(body.fields, "evidence_payload")
  }

  lemma BodyKeysDiffer(m: Message, r: HandlerResult)
    ensures DistinctKeys(Body(m, r).fields)
  {
    assert |"lease_id"| == 8 && |"lease_token"| == 11 && |"terminal_status"| == 15;
    assert |"result_schema"| == 13 && |"result_payload"| == 14 && |"evidence_payload"| == 16;
  }

  lemma BodyHolds(m: Message, r: HandlerResult)
    ensures BodyFor(Body(m, r), m, StatusWord(r.status), r.schema, r.payload, r.evidence)
  {
    var fields := Body(m, r).fields;
    BodyKeysDiffer(m, r);
    assert fields[0].key == "lease_id" && fields[1].key == "lease_token" && fields[2].key == "terminal_status";
    assert fields[3].key == "result_schema" && fields[4].key == "result_payload" && fields[5].key == "evidence_payload";
    GetFinds(fields, "lease_id", Null, 0);
    GetFinds(fields, "lease_token", Null, 1);
    GetFinds(fields, "terminal_status", Null, 2);
    GetFinds(fields, "result_schema", Null, 3);
    GetFinds(fields, "result_payload", Null, 4);
    GetFinds(fields, "evidence_payload", Null, 5);
  }

  /** What decides that a result is not sent, in the order in which it is looked at: nothing,
      when both parts and the whole body encode within a megabyte. */
  function Cause(m: Message, r: HandlerResult): Fit {
    var checks := [FitOf(Encode(r.payload, true), 1048576), FitOf(Encode(r.evidence, true), 1048576),
                   FitOf(Encode(Body(m, r), false), 1048576)];
    if !checks[0].Fits? then checks[0] else if !checks[1].Fits? then checks[1] else checks[2]
  }

  /** A failure's schema and payload: workflow operations expect a failed outcome, all others
      an error. */
  function FailureParts(operation: string, code: string, detail: string): (string, Json) {
    if operation in {"workflow.execute", "workflow.resume", "workflow.cancel"} then
      ("atellagent.connected.workflow-outcome.v1",
       Obj([Field("protocol_version", Str("v1")), Field("outcome", Str("failed")),
            Field("error", Obj([Field("code", Str(code)), Field("detail", Str(detail))]))]))
    else
      ("atellagent.connected.error.v1",
       Obj([Field("error_type", Str(if code == "connected_result_too_large" then "ConnectedResultTooLarge" else "ConnectedResultInvalid")),
            Field("code", Str(code)), Field("detail", Str(detail))]))
  }

  /** Every payload names its own lease id and token. A result whose parts and body encode
      within a megabyte is sent as it is; any other becomes a failure whose code tells why. */
  lemma PayloadIsBoundToItsLease(m: Message, r: HandlerResult) returns (detail: string)
    ensures var body := BuildResultCommitPayload(m, r);
      if Cause(m, r).Fits? then BodyFor(body, m, StatusWord(r.status), r.schema, r.payload, r.evidence)
      else
        var code := if Cause(m, r).TooLarge? then "connected_result_too_large" else "connected_result_invalid";
        var (schema, payload) := FailureParts(m.operation, code, detail);
        BodyFor(body, m, "failed", schema, payload, Obj([]))
  {
    CauseIsBudget(m, r);
    var fit := BudgetOf(m, r);
    detail := Detail(fit);
    FallbackHolds(m, fit);
    BodyHolds(m, if fit.Fits? then r else Fallback(m, fit));
  }

  lemma CauseIsBudget(m: Message, r: HandlerResult)
    ensures Cause(m, r) == BudgetOf(m, r)
  {
  }

  lemma FallbackHolds(m: Message, fit: Fit)
    ensures var code := if fit.TooLarge? then "connected_result_too_large" else "connected_result_invalid";
      var (schema, payload) := FailureParts(m.operation, code, Detail(fit));
      Fallback(m, fit) == HandlerResult(Failed, schema, payload, Obj([]))
  {
    assert |"connected_result_too_large"| == 26 && |"connected_result_invalid"| == 24;
  }
}
