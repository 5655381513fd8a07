/** JSON messages of the gopls connection and the health-probe checks made on them. */
module Health {
  import opened Decimal

  datatype Json =
    | Null
    | Bool(b: bool)
    | Int(n: int)
    | Float
    | Str(s: string)
    | Arr(items: seq<Json>)
    | Obj(fields: map<string, Json>)

  const PREFIX := "prod-code-health:"

  /** `Value::get`: a member of an object; nothing for any other value. */
  function Get(v: Json, key: string): Option<Json> {
    if v.Obj? && key in v.fields then Some(v.fields[key]) else None
  }

  function AsU64(v: Json): Option<nat> {
    if v.Int? && 0 <= v.n < U64_LIMIT then Some(v.n) else None
  }

  predicate IsI64(v: Json) { v.Int? && -0x8000_0000_0000_0000 <= v.n < 0x8000_0000_0000_0000 }

  predicate HasMethod(v: Json) { Get(v, "method").Some? }

  function HealthId(sequence: nat): string { PREFIX + Print(sequence) }

  /** The number of the health probe `response` answers, if its id is one issued below `next`. */
  function HealthSequence(response: Json, next: nat): Option<nat> {
    var id := Get(response, "id");
    if id.None? || !id.value.Str? || !(PREFIX <= id.value.s) then None else
    var suffix := id.value.s[|PREFIX|..];
    var sequence := ParseUnsigned(suffix, U64_LIMIT);
    if sequence.Some? && sequence.value != 0 && sequence.value < next && Print(sequence.value) == suffix
    then sequence else None
  }

  /** A response object of section 5 of JSON-RPC 2.0, answering the probe `id`. */
  predicate ValidResponse(response: Json, id: string) {
    && response.Obj?
    && Get(response, "jsonrpc") == Some(Str("2.0"))
    && Get(response, "id") == Some(Str(id))
    && !HasMethod(response)
    && match (Get(response, "result"), Get(response, "error")) {
         case (Some(_), None) => true
         case (None, Some(error)) =>
           var code, message := Get(error, "code"), Get(error, "message");
           code.Some? && IsI64(code.value) && message.Some? && message.value.Str?
         case _ => false
       }
  }

  /** The members that decide whether a message is an answer. */
  const TELLING := {"jsonrpc", "id", "method", "result", "error"}

  /** An answer object of JSON-RPC 2.0, whatever else is in it. */
  function Response(id: Json, outcome: string, value: Json, extra: map<string, Json>): Json {
    Obj(extra["jsonrpc" := Str("2.0")]["id" := id][outcome := value])
  }

  function Failure(code: int, message: string, extra: map<string, Json>): Json {
    Obj(extra["code" := Int(code)]["message" := Str(message)])
  }

  /** A result of any kind, also `null`, makes a valid answer, and so does an error with a 64-bit code
      and a message. */
  lemma AnswersAreValid(id: string, r: Json, code: int, message: string, extra: map<string, Json>, more: map<string, Json>)
    requires extra.Keys !! TELLING && -0x8000_0000_0000_0000 <= code < 0x8000_0000_0000_0000
    ensures ValidResponse(Response(Str(id), "result", r, extra), id)
    ensures ValidResponse(Response(Str(id), "error", Failure(code, message, more), extra), id)
  {
    ResponseFields(Str(id), "result", r, extra);
    ResponseFields(Str(id), "error", Failure(code, message, more), extra);
    FailureFields(code, message, more);
  }

  lemma ResponseFields(id: Json, outcome: string, value: Json, extra: map<string, Json>)
    requires extra.Keys !! TELLING && (outcome == "result" || outcome == "error")
    ensures var response := Response(id, outcome, value, extra);
            && Get(response, "jsonrpc") == Some(Str("2.0")) && Get(response, "id") == Some(id) && !HasMethod(response)
            && Get(response, outcome) == Some(value) && Get(response, if outcome == "result" then "error" else "result") == None
  {
    KeysDiffer();
  }

  lemma FailureFields(code: int, message: string, extra: map<string, Json>)
    ensures Get(Failure(code, message, extra), "code") == Some(Int(code))
    ensures Get(Failure(code, message, extra), "message") == Some(Str(message))
  {
    KeysDiffer();
  }

  lemma KeysDiffer()
    ensures |"jsonrpc"| == 7 && |"id"| == 2 && "method"[0] == 'm' && "result"[0] == 'r' && "error"[0] == 'e'
    ensures "code"[0] == 'c' && "message"[0] == 'm' && "jsonrpc"[0] == 'j' && "id"[0] == 'i'
  {
  }

  /** Nothing else is: whatever has a method, another id or version, both a result and an error or neither of
      them, or an error without such a code and message. */
  lemma OnlyAnswersAreValid(response: Json, id: string)
    requires
      || !response.Obj? || HasMethod(response)
      || Get(response, "id") != Some(Str(id)) || Get(response, "jsonrpc") != Some(Str("2.0"))
      || Get(response, "result").Some? == Get(response, "error").Some?
      || (Get(response, "error").Some? && !(
            && Get(Get(response, "error").value, "code").Some? && IsI64(Get(Get(response, "error").value, "code").value)
            && Get(Get(response, "error").value, "message").Some? && Get(Get(response, "error").value, "message").value.Str?))
    ensures !ValidResponse(response, id)
  {
  }

  lemma HealthSequenceSound(response: Json, next: nat)
    requires HealthSequence(response, next).Some?
    ensures var sequence := HealthSequence(response, next).value;
            0 < sequence < next && Get(response, "id") == Some(Str(HealthId(sequence)))
  {
    var id := Get(response, "id").value.s;
    assert id == PREFIX + id[|PREFIX|..];
  }

  /** Reading an id back gives a probe exactly when the id is the printed one of an issued probe. */
  lemma HealthSequenceExact(response: Json, next: nat, sequence: nat)
    requires next <= U64_LIMIT
    ensures HealthSequence(response, next) == Some(sequence) <==>
            0 < sequence < next && Get(response, "id") == Some(Str(HealthId(sequence)))
    ensures HealthId(sequence) == "prod-code-health:" + Print(sequence)
  {
    if HealthSequence(response, next).Some? {
      HealthSequenceSound(response, next);
      HealthIdInjective(HealthSequence(response, next).value, sequence);
    }
    ParseUnsignedOfPrint(sequence, U64_LIMIT);
    assert HealthId(sequence)[|PREFIX|..] == Print(sequence);
  }

  /** Different probes have different ids. */
  lemma HealthIdInjective(a: nat, b: nat)
    ensures HealthId(a) == HealthId(b) ==> a == b
  {
    assert HealthId(a)[|PREFIX|..] == Print(a) && HealthId(b)[|PREFIX|..] == Print(b);
    ValueOfPrint(a);
    ValueOfPrint(b);
  }
}
