/** The error output always fits and is always a valid message, so that reporting an error
    can not itself fail for its size or shape. */
module Fallback {
  import opened Protocol
  import opened JsonIntegers

  /** JSON documents, as far as error outputs need them. */
  datatype Doc = Number(n: nat) | Text(s: string) | Object(members: seq<(string, Doc)>)

  // ---------------------------------------------------------------- compact encoding

  /** Characters the encoder writes as they are. */
  predicate IsPlain(c: char) {
    ' ' <= c <= '~' && c != '"' && c != '\\'
  }

  predicate Plain(s: string) {
    forall i :: 0 <= i < |s| ==> IsPlain(s[i])
  }

  predicate PlainDoc(doc: Doc) {
    match doc
    case Number(_) => true
    case Text(s) => Plain(s)
    case Object(members) => forall i :: 0 <= i < |members| ==> Plain(members[i].0) && PlainDoc(members[i].1)
  }

  function Quoted(s: string): string {
    "\"" + s + "\""
  }

  /** `json.dumps` with separators "," and ":". */
  function Encoded(doc: Doc): string
    requires PlainDoc(doc)
    decreases doc, 1, 0
  {
    match doc
    case Number(n) => NatText(n)
    case Text(s) => Quoted(s)
    case Object(members) => "{" + EncodedMembers(doc, |members|) + "}"
  }

  /** The first `k` members of an object, separated by commas. */
  function EncodedMembers(doc: Doc, k: nat): string
    requires PlainDoc(doc) && doc.Object? && k <= |doc.members|
    decreases doc, 0, k
  {
    if k == 0 then ""
    else
      var m := doc.members[k - 1];
      EncodedMembers(doc, k - 1) + (if k == 1 then "" else ",") + Quoted(m.0) + ":" + Encoded(m.1)
  }

  // ---------------------------------------------------------------- the event

  const ERROR_CODES: set<nat> := {60000, 60001, 60002, 60003, 60005, 60007, 60008, 60009}

  function ErrorName(code: nat): string
    requires code in ERROR_CODES
  {
    match code
    case 60000 => "MODEL_API_TIMEOUT"
    case 60001 => "MODEL_API_DNS_ERROR"
    case 60002 => "MODEL_API_TLS_ERROR"
    case 60003 => "MODEL_API_CONNECTION_ERROR"
    case 60005 => "DUPLICATE_REQUEST"
    case 60007 => "MODEL_PROXY_INTERRUPTED"
    case 60008 => "PAYLOAD_TOO_LARGE"
    case _ => "INVALID_REQUEST"
  }

  function ErrorBody(code: nat): Doc
    requires code in ERROR_CODES
  {
    Object([("error", Object([("code", Text(ErrorName(code))), ("message", Text(ErrorName(code))),
                              ("type", Text("model_proxy_error"))]))])
  }

  /** The payload `_error_output` publishes: an interrupted end, or a result with a body. */
  function ErrorEvent(asEnd: bool, streamId: string, requestSeq: nat, code: nat, tsMs: nat): Doc
    requires code in ERROR_CODES
  {
    if asEnd then
      Object([("kind", Text("infer.end")), ("ts_ms", Number(tsMs)), ("stream_id", Text(streamId)),
              ("request_seq", Number(requestSeq)), ("status_code", Number(code)),
              ("end_status", Text("interrupted")), ("body", ErrorBody(code))])
    else
      Object([("kind", Text("infer.result")), ("ts_ms", Number(tsMs)), ("stream_id", Text(streamId)),
              ("prev_seq", Number(requestSeq)), ("status_code", Number(code)), ("body", ErrorBody(code))])
  }

  predicate IsStreamIdChar(c: char) {
    'A' <= c <= 'Z' || 'a' <= c <= 'z' || '0' <= c <= '9' || c in "._:-"
  }

  predicate IsStreamId(s: string) {
    1 <= |s| <= 128 && forall i :: 0 <= i < |s| ==> IsStreamIdChar(s[i])
  }

  // ---------------------------------------------------------------- its size

  /** The least `max_payload_bytes` a configuration may have. */
  const LEAST_PAYLOAD_LIMIT := 4096

  const U64: nat := 0x1_0000_0000_0000_0000

  lemma NumbersAreShort(n: nat)
    requires n < U64
    ensures |NatText(n)| <= 20
  {
    assert Pow10(5) == 100000;
    assert Pow10(10) == 10000000000;
    assert Pow10(15) == 1000000000000000;
    assert Pow10(20) == 100000000000000000000;
    SmallIsShort(n, 20);
  }

  /** What the `k`-th member adds. */
  lemma MemberSize(doc: Doc, k: nat)
    requires PlainDoc(doc) && doc.Object? && 1 <= k <= |doc.members|
    ensures |EncodedMembers(doc, k)|
            <= |EncodedMembers(doc, k - 1)| + |doc.members[k - 1].0| + |Encoded(doc.members[k - 1].1)| + 4
  {
  }

  lemma ApiErrorNames()
    ensures Plain("MODEL_API_TIMEOUT") && Plain("MODEL_API_DNS_ERROR") && Plain("MODEL_API_TLS_ERROR")
            && Plain("MODEL_API_CONNECTION_ERROR")
  {
  }

  lemma ProxyErrorNames()
    ensures Plain("DUPLICATE_REQUEST") && Plain("MODEL_PROXY_INTERRUPTED") && Plain("PAYLOAD_TOO_LARGE")
            && Plain("INVALID_REQUEST")
  {
  }

  lemma ErrorNameSize(code: nat)
    requires code in ERROR_CODES
    ensures |ErrorName(code)| <= 30 && Plain(ErrorName(code))
  {
    ApiErrorNames();
    ProxyErrorNames();
  }

  lemma ErrorBodySize(code: nat)
    requires code in ERROR_CODES
    ensures PlainDoc(ErrorBody(code)) && |Encoded(ErrorBody(code))| <= 200
  {
    ErrorNameSize(code);
    var body := ErrorBody(code);
    DetailsSize(ErrorName(code), body.members[0].1);
    MemberSize(body, 1);
  }

  lemma DetailsSize(name: string, details: Doc)
    requires |name| <= 30 && Plain(name)
    requires details == Object([("code", Text(name)), ("message", Text(name)), ("type", Text("model_proxy_error"))])
    ensures PlainDoc(details) && |Encoded(details)| <= 150
  {
    assert Plain("code") && Plain("message") && Plain("type") && Plain("model_proxy_error");
    MemberSize(details, 1);
    MemberSize(details, 2);
    MemberSize(details, 3);
  }

  lemma StreamIdIsPlain(s: string)
    requires IsStreamId(s)
    ensures Plain(s)
  {
  }

  lemma CommonLabels()
    ensures Plain("kind") && Plain("ts_ms") && Plain("stream_id") && Plain("status_code") && Plain("body")
  {
  }

  lemma OwnLabels()
    ensures Plain("request_seq") && Plain("prev_seq") && Plain("end_status")
    ensures Plain("infer.end") && Plain("infer.result") && Plain("interrupted")
  {
  }

  lemma EndEventIsPlain(streamId: string, requestSeq: nat, code: nat, tsMs: nat)
    requires code in ERROR_CODES && IsStreamId(streamId)
    ensures PlainDoc(ErrorEvent(true, streamId, requestSeq, code, tsMs))
  {
    StreamIdIsPlain(streamId);
    ErrorBodySize(code);
    CommonLabels();
    OwnLabels();
  }

  lemma ResultEventIsPlain(streamId: string, requestSeq: nat, code: nat, tsMs: nat)
    requires code in ERROR_CODES && IsStreamId(streamId)
    ensures PlainDoc(ErrorEvent(false, streamId, requestSeq, code, tsMs))
  {
    StreamIdIsPlain(streamId);
    ErrorBodySize(code);
    CommonLabels();
    OwnLabels();
  }

  lemma EndEventSize(streamId: string, requestSeq: nat, code: nat, tsMs: nat)
    requires code in ERROR_CODES && IsStreamId(streamId) && requestSeq < U64 && tsMs < U64
    ensures PlainDoc(ErrorEvent(true, streamId, requestSeq, code, tsMs))
    ensures |Encoded(ErrorEvent(true, streamId, requestSeq, code, tsMs))| <= LEAST_PAYLOAD_LIMIT
  {
    EndEventIsPlain(streamId, requestSeq, code, tsMs);
    var doc := ErrorEvent(true, streamId, requestSeq, code, tsMs);
    NumbersAreShort(requestSeq);
    NumbersAreShort(tsMs);
    NumbersAreShort(code);
    ErrorBodySize(code);
    MemberSize(doc, 1);
    MemberSize(doc, 2);
    MemberSize(doc, 3);
    MemberSize(doc, 4);
    MemberSize(doc, 5);
    MemberSize(doc, 6);
    MemberSize(doc, 7);
  }

  lemma ResultEventSize(streamId: string, requestSeq: nat, code: nat, tsMs: nat)
    requires code in ERROR_CODES && IsStreamId(streamId) && requestSeq < U64 && tsMs < U64
    ensures PlainDoc(ErrorEvent(false, streamId, requestSeq, code, tsMs))
    ensures |Encoded(ErrorEvent(false, streamId, requestSeq, code, tsMs))| <= LEAST_PAYLOAD_LIMIT
  {
    ResultEventIsPlain(streamId, requestSeq, code, tsMs);
    var doc := ErrorEvent(false, streamId, requestSeq, code, tsMs);
    NumbersAreShort(requestSeq);
    NumbersAreShort(tsMs);
    NumbersAreShort(code);
    ErrorBodySize(code);
    MemberSize(doc, 1);
    MemberSize(doc, 2);
    MemberSize(doc, 3);
    MemberSize(doc, 4);
    MemberSize(doc, 5);
    MemberSize(doc, 6);
  }

  /** `validate_payload` of `_emit` lets every error output pass, under every configuration. */
  lemma ErrorOutputFits(asEnd: bool, streamId: string, requestSeq: nat, code: nat, tsMs: nat, maxPayloadBytes: nat)
    requires code in ERROR_CODES && IsStreamId(streamId) && requestSeq < U64 && tsMs < U64
    requires LEAST_PAYLOAD_LIMIT <= maxPayloadBytes
    ensures PlainDoc(ErrorEvent(asEnd, streamId, requestSeq, code, tsMs))
    ensures |Encoded(ErrorEvent(asEnd, streamId, requestSeq, code, tsMs))| <= maxPayloadBytes
  {
    if asEnd {
      EndEventSize(streamId, requestSeq, code, tsMs);
    } else {
      ResultEventSize(streamId, requestSeq, code, tsMs);
    }
  }

  // ---------------------------------------------------------------- its shape

  function Field(doc: Doc, name: string): Option<Doc>
    requires doc.Object?
  {
    FieldUpTo(doc, name, |doc.members|)
  }

  function FieldUpTo(doc: Doc, name: string, k: nat): Option<Doc>
    requires doc.Object? && k <= |doc.members|
  {
    if k == 0 then None
    else if doc.members[k - 1].0 == name then Some(doc.members[k - 1].1)
    else FieldUpTo(doc, name, k - 1)
  }

  lemma {:induction false} FieldFound(doc: Doc, k: nat, i: nat)
    requires doc.Object? && i < k <= |doc.members|
    requires forall j :: i < j < k ==> doc.members[j].0 != doc.members[i].0
    ensures FieldUpTo(doc, doc.members[i].0, k) == Some(doc.members[i].1)
  {
    if i < k - 1 {
      FieldFound(doc, k - 1, i);
    }
  }

  lemma {:induction false} FieldMissing(doc: Doc, name: string, k: nat)
    requires doc.Object? && k <= |doc.members|
    requires forall j :: 0 <= j < k ==> doc.members[j].0 != name
    ensures FieldUpTo(doc, name, k) == None
  {
    if k > 0 {
      FieldMissing(doc, name, k - 1);
    }
  }

  /** No two members have the same name. */
  lemma AllFieldsFound(doc: Doc)
    requires doc.Object? && forall i, j :: 0 <= i < j < |doc.members| ==> doc.members[i].0 != doc.members[j].0
    ensures forall i :: 0 <= i < |doc.members| ==> Field(doc, doc.members[i].0) == Some(doc.members[i].1)
    ensures forall name :: name !in Keys(doc) ==> Field(doc, name).None?
  {
    forall i | 0 <= i < |doc.members| ensures Field(doc, doc.members[i].0) == Some(doc.members[i].1) {
      FieldFound(doc, |doc.members|, i);
    }
    forall name | name !in Keys(doc) ensures Field(doc, name).None? {
      FieldMissing(doc, name, |doc.members|);
    }
  }

  function Keys(doc: Doc): set<string>
    requires doc.Object?
  {
    set i | 0 <= i < |doc.members| :: doc.members[i].0
  }

  const COMMON := {"kind", "stream_id", "ts_ms"}
  const RESULT_REQUIRED := COMMON + {"prev_seq", "status_code"}
  const RESULT_OPTIONAL := {"headers", "body"}
  const END_REQUIRED := COMMON + {"request_seq", "status_code", "end_status"}
  const END_OPTIONAL := {"body"}
  const RESULT_CODES: set<nat> := {60000, 60001, 60002, 60003, 60005, 60007, 60008, 60009}
  const INTERRUPTED_CODES: set<nat> := {60000, 60001, 60002, 60003, 60007, 60008}

  predicate IsPositive(field: Option<Doc>) {
    field.Some? && field.value.Number? && field.value.n > 0
  }

  /** `_validate` of a result or an end, without headers and for any JSON body. */
  predicate IsValidOutput(doc: Doc) {
    && doc.Object?
    && var kind := Field(doc, "kind");
    && (kind == Some(Text("infer.result")) || kind == Some(Text("infer.end")))
    && var isEnd := kind == Some(Text("infer.end"));
    && var required := if isEnd then END_REQUIRED else RESULT_REQUIRED;
    && var optional := if isEnd then END_OPTIONAL else RESULT_OPTIONAL;
    && required <= Keys(doc) <= required + optional && Field(doc, "headers").None?
    && var streamId, tsMs, status := Field(doc, "stream_id"), Field(doc, "ts_ms"), Field(doc, "status_code");
    && streamId.Some? && streamId.value.Text? && IsStreamId(streamId.value.s)
    && tsMs.Some? && tsMs.value.Number?
    && IsPositive(Field(doc, if isEnd then "request_seq" else "prev_seq"))
    && status.Some? && status.value.Number?
    && var http := 100 <= status.value.n <= 599;
    && if isEnd then
         var endStatus, hasBody := Field(doc, "end_status"), Field(doc, "body").Some?;
         if endStatus == Some(Text("interrupted")) then hasBody && status.value.n in INTERRUPTED_CODES
         else http && (endStatus == Some(Text("completed")) || (endStatus == Some(Text("failed")) && hasBody))
       else
         http || (Field(doc, "body").Some? && status.value.n in RESULT_CODES)
  }

  lemma EndFields(doc: Doc)
    requires doc.Object? && |doc.members| == 7
    ensures Keys(doc) == {doc.members[0].0, doc.members[1].0, doc.members[2].0, doc.members[3].0,
                          doc.members[4].0, doc.members[5].0, doc.members[6].0}
  {
  }

  lemma ResultFields(doc: Doc)
    requires doc.Object? && |doc.members| == 6
    ensures Keys(doc) == {doc.members[0].0, doc.members[1].0, doc.members[2].0, doc.members[3].0,
                          doc.members[4].0, doc.members[5].0}
  {
  }

  /** As an end, an error output is valid except for the two codes that only rejections
      have, and those are published as results. */
  lemma ErrorEndIsValid(streamId: string, requestSeq: nat, code: nat, tsMs: nat)
    requires code in ERROR_CODES && IsStreamId(streamId) && requestSeq > 0
    ensures IsValidOutput(ErrorEvent(true, streamId, requestSeq, code, tsMs)) <==> code != 60005 && code != 60009
  {
    var doc := ErrorEvent(true, streamId, requestSeq, code, tsMs);
    EndFields(doc);
    AllFieldsFound(doc);
    assert doc.members[0].0 == "kind" && doc.members[1].0 == "ts_ms" && doc.members[2].0 == "stream_id";
    assert doc.members[3].0 == "request_seq" && doc.members[4].0 == "status_code";
    assert doc.members[5].0 == "end_status" && doc.members[6].0 == "body";
  }

  lemma ErrorResultIsValid(streamId: string, requestSeq: nat, code: nat, tsMs: nat)
    requires code in ERROR_CODES && IsStreamId(streamId) && requestSeq > 0
    ensures IsValidOutput(ErrorEvent(false, streamId, requestSeq, code, tsMs))
  {
    var doc := ErrorEvent(false, streamId, requestSeq, code, tsMs);
    ResultFields(doc);
    AllFieldsFound(doc);
    assert doc.members[0].0 == "kind" && doc.members[1].0 == "ts_ms" && doc.members[2].0 == "stream_id";
    assert doc.members[3].0 == "prev_seq" && doc.members[4].0 == "status_code" && doc.members[5].0 == "body";
  }

  /** The codes `_error_output` is called with: by a provider task, by recovery, and by the
      control thread. */
  predicate IsUsed(code: nat, recovery: bool, rejection: bool) {
    if rejection then !recovery && code in {60005, 60008, 60009}
    else if recovery then code == 60007
    else code in {60000, 60001, 60002, 60003, 60007, 60008}
  }

  /** Whatever the Worker reports about whatever request, the output is valid and fits. */
  lemma ErrorOutputIsPublishable(
    streaming: bool, duplicate: bool, recovery: bool, rejection: bool,
    streamId: string, requestSeq: nat, code: nat, tsMs: nat, maxPayloadBytes: nat)
    requires IsUsed(code, recovery, rejection) && IsStreamId(streamId)
    requires 0 < requestSeq < U64 && tsMs < U64 && LEAST_PAYLOAD_LIMIT <= maxPayloadBytes
    ensures code in ERROR_CODES
    ensures var asEnd := streaming && !rejection && !(recovery && duplicate);
            var doc := ErrorEvent(asEnd, streamId, requestSeq, code, tsMs);
            IsValidOutput(doc) && PlainDoc(doc) && |Encoded(doc)| <= maxPayloadBytes
  {
    var asEnd := streaming && !rejection && !(recovery && duplicate);
    ErrorOutputFits(asEnd, streamId, requestSeq, code, tsMs, maxPayloadBytes);
    ErrorEndIsValid(streamId, requestSeq, code, tsMs);
    ErrorResultIsValid(streamId, requestSeq, code, tsMs);
  }
}
