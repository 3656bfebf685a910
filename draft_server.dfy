/**
 * The early draft `Server` of server.go (package `mcp`): a tool map filled in place by `Tool`,
 * and the `mcp` struct-tag validator (`parseTag`, `extractMaxLength`, `validateStruct`).
 * Reflection is replaced by an explicit value: a struct is its list of fields, each with its
 * name, its `mcp` tag (empty when absent) and its value. The regular expression
 * `maxLength\((\d+)\)` is replaced by a direct scan for its leftmost match.
 */
module DraftServer {
  import opened Wrappers
  import opened GoStrings

  // ---------------------------------------------------------------- the tool map

  datatype ToolType = ToolType(name: string, description: string, handler: HandlerId)

  class Server {
    /** The transport the server was built with, never used by the draft. */
    var transport: HandlerId
    var tools: map<string, ToolType>

    /** `NewServer`: no tools yet. */
    constructor (transport: HandlerId)
      ensures this.transport == transport && tools == map[]
    {
      this.transport := transport;
      tools := map[];
    }

    /** Registers `name`, replacing any tool of that name; every other entry is kept. */
    method Tool(name: string, description: string, handler: HandlerId)
      modifies this`tools
      ensures tools == old(tools)[name := ToolType(name, description, handler)]
      ensures tools.Keys == old(tools).Keys + {name}
      ensures forall n :: n in old(tools) && n != name ==> tools[n] == old(tools)[n]
    {
      tools := tools[name := ToolType(name, description, handler)];
    }
  }

  /** Registering the same name twice keeps only the second registration. */
  method LastToolWins(s: Server, name: string, d1: string, h1: HandlerId, d2: string, h2: HandlerId)
    modifies s
    ensures s.tools == old(s.tools)[name := ToolType(name, d2, h2)]
  {
    s.Tool(name, d1, h1);
    s.Tool(name, d2, h2);
  }

  // ---------------------------------------------------------------- parseTag

  /** The key a tag part contributes, if it holds a `:`: the text before it, space-trimmed. */
  function PartKey(part: string): Option<string> {
    match CutFirst(part, ':')
    case None => None
    case Some((k, _)) => Some(TrimSpace(k))
  }

  /** The value a tag part contributes: the text after its first `:`, quote-trimmed only. */
  function PartValue(part: string): string
    requires PartKey(part).Some?
  {
    TrimQuotes(CutFirst(part, ':').value.1)
  }

  /** The map the parts build when entered left to right, a later key replacing an earlier one. */
  function TagMap(parts: seq<string>): map<string, string>
    decreases |parts|
  {
    if |parts| == 0 then map[]
    else
      var m := TagMap(parts[..|parts| - 1]);
      var last := parts[|parts| - 1];
      if PartKey(last).Some? then m[PartKey(last).value := PartValue(last)] else m
  }

  /** Some part with a `:` names `key`. */
  ghost predicate Names(parts: seq<string>, key: string) {
    exists j :: 0 <= j < |parts| && PartKey(parts[j]) == Some(key)
  }

  /** A key is in the map exactly when some part with a `:` names it. */
  lemma {:induction false} TagMapKeys(parts: seq<string>, key: string)
    ensures key in TagMap(parts) <==> Names(parts, key)
    decreases |parts|
  {
    if |parts| > 0 {
      var init := parts[..|parts| - 1];
      TagMapKeys(init, key);
      TagMapStep(parts, key);
      NamesStep(parts, key);
    }
  }

  /** One step of `Names`: the last part is one more candidate. */
  lemma NamesStep(parts: seq<string>, key: string)
    requires |parts| > 0
    ensures Names(parts, key) <==> Names(parts[..|parts| - 1], key) || PartKey(parts[|parts| - 1]) == Some(key)
  {
    ExistsStep(parts, parts[..|parts| - 1], (part: string) => PartKey(part) == Some(key));
  }

  /** Some element of `s` satisfies `p` exactly when one before the last does, or the last does. */
  lemma ExistsStep<T>(s: seq<T>, init: seq<T>, p: T -> bool)
    requires |s| > 0 && init == s[..|s| - 1]
    ensures (exists j :: 0 <= j < |s| && p(s[j]))
      <==> (exists j :: 0 <= j < |init| && p(init[j])) || p(s[|s| - 1])
  {
    if exists j :: 0 <= j < |init| && p(init[j]) {
      var j :| 0 <= j < |init| && p(init[j]);
      assert s[j] == init[j];
    }
    if (exists j :: 0 <= j < |s| && p(s[j])) && !p(s[|s| - 1]) {
      var j :| 0 <= j < |s| && p(s[j]);
      assert init[j] == s[j];
    }
  }

  /** One step of `TagMap`: the last part adds its key, if it has one. */
  lemma TagMapStep(parts: seq<string>, key: string)
    requires |parts| > 0
    ensures key in TagMap(parts) <==> key in TagMap(parts[..|parts| - 1]) || PartKey(parts[|parts| - 1]) == Some(key)
  {
  }

  /** A key's value comes from the last part naming it. */
  lemma {:induction false} TagMapLastWins(parts: seq<string>, j: nat)
    requires j < |parts| && PartKey(parts[j]).Some?
    requires forall l :: j < l < |parts| ==> PartKey(parts[l]) != PartKey(parts[j])
    ensures PartKey(parts[j]).value in TagMap(parts)
    ensures TagMap(parts)[PartKey(parts[j]).value] == PartValue(parts[j])
    decreases |parts|
  {
    if j < |parts| - 1 {
      var init := parts[..|parts| - 1];
      assert init[j] == parts[j];
      forall l | j < l < |init|
        ensures PartKey(init[l]) != PartKey(init[j])
      {
        assert init[l] == parts[l];
      }
      TagMapLastWins(init, j);
    }
  }

  /** `parseTag`: split on `,`, then enter each part that holds a `:`. */
  method ParseTag(tag: string) returns (result: map<string, string>)
    ensures result == TagMap(Split(tag, ','))
  {
    result := map[];
    var parts := Split(tag, ',');
    for i := 0 to |parts|
      invariant result == TagMap(parts[..i])
    {
      assert parts[..i + 1][..i] == parts[..i];
      var kv := CutFirst(parts[i], ':');
      if kv.Some? {
        result := result[TrimSpace(kv.value.0) := TrimQuotes(kv.value.1)];
      }
    }
    assert parts[..|parts|] == parts;
  }

  // ---------------------------------------------------------------- extractMaxLength

  const MaxLengthOpen: string := "maxLength("

  predicate IsDigit(c: char) {
    '0' <= c <= '9'
  }

  /** The length of the run of ASCII digits starting at `i`. */
  function DigitRun(s: string, i: nat): (n: nat)
    requires i <= |s|
    ensures i + n <= |s|
    ensures forall k :: i <= k < i + n ==> IsDigit(s[k])
    ensures i + n < |s| ==> !IsDigit(s[i + n])
    decreases |s| - i
  {
    if i == |s| || !IsDigit(s[i]) then 0 else 1 + DigitRun(s, i + 1)
  }

  /** `maxLength(`, one or more digits (all of the run) and `)` start at `i`. */
  predicate MatchAt(s: string, i: nat) {
    && i + |MaxLengthOpen| <= |s|
    && s[i..i + |MaxLengthOpen|] == MaxLengthOpen
    && var n := DigitRun(s, i + |MaxLengthOpen|);
       n > 0 && i + |MaxLengthOpen| + n < |s| && s[i + |MaxLengthOpen| + n] == ')'
  }

  /** The digits of the match at `i`. */
  function MatchDigits(s: string, i: nat): (d: string)
    requires MatchAt(s, i)
    ensures |d| > 0 && forall k :: 0 <= k < |d| ==> IsDigit(d[k])
  {
    var start := i + |MaxLengthOpen|;
    s[start..start + DigitRun(s, start)]
  }

  /** The leftmost match at `from` or later. */
  function LeftmostMatch(s: string, from: nat): (r: Option<nat>)
    requires from <= |s|
    ensures r.Some? ==> from <= r.value < |s| && MatchAt(s, r.value)
    ensures r.Some? ==> forall k :: from <= k < r.value ==> !MatchAt(s, k)
    ensures r.None? ==> forall k :: from <= k ==> !MatchAt(s, k)
    decreases |s| - from
  {
    if from == |s| then None
    else if MatchAt(s, from) then Some(from)
    else LeftmostMatch(s, from + 1)
  }

  /** The value of a string of decimal digits. */
  function DecimalValue(d: string): nat
    requires forall k :: 0 <= k < |d| ==> IsDigit(d[k])
    decreases |d|
  {
    if |d| == 0 then 0
    else
      assert IsDigit(d[|d| - 1]);
      10 * DecimalValue(d[..|d| - 1]) + (d[|d| - 1] as int - '0' as int)
  }

  /** `strconv.Atoi` on digits: a value beyond `int` yields `MaxInt64` (with an error that is ignored). */
  function Atoi(d: string): (n: int)
    requires forall k :: 0 <= k < |d| ==> IsDigit(d[k])
    ensures 0 <= n <= MaxInt64
    ensures n == if DecimalValue(d) <= MaxInt64 then DecimalValue(d) else MaxInt64
  {
    if DecimalValue(d) <= MaxInt64 then DecimalValue(d) else MaxInt64
  }

  /** `extractMaxLength`: the number in the leftmost `maxLength(<digits>)`, else 0. */
  function ExtractMaxLength(validation: string): (n: int)
    ensures 0 <= n <= MaxInt64
    ensures LeftmostMatch(validation, 0).None? ==> n == 0
    ensures LeftmostMatch(validation, 0).Some? ==> n == Atoi(MatchDigits(validation, LeftmostMatch(validation, 0).value))
  {
    match LeftmostMatch(validation, 0)
    case None => 0
    case Some(i) => Atoi(MatchDigits(validation, i))
  }

  /** The decimal spelling of `n`, without leading zeros. */
  function Decimal(n: nat): (d: string)
    ensures |d| > 0 && forall k :: 0 <= k < |d| ==> IsDigit(d[k])
    decreases n
  {
    if n < 10 then [('0' as int + n) as char] else Decimal(n / 10) + [('0' as int + n % 10) as char]
  }

  lemma {:induction false} DecimalRoundTrip(n: nat)
    ensures DecimalValue(Decimal(n)) == n
    decreases n
  {
    if n >= 10 {
      DecimalRoundTrip(n / 10);
      var d := Decimal(n);
      assert d[..|d| - 1] == Decimal(n / 10);
    }
  }

  /** `maxLength(N)` written with the decimal spelling of a representable N yields N. */
  lemma ExtractSpelledLimit(n: nat)
    requires n <= MaxInt64
    ensures ExtractMaxLength(MaxLengthOpen + Decimal(n) + ")") == n
  {
    var d := Decimal(n);
    var s := MaxLengthOpen + d + ")";
    var start := |MaxLengthOpen|;
    assert s[0..start] == MaxLengthOpen;
    assert forall k :: 0 <= k < |d| ==> s[start + k] == d[k];
    DigitRunCovers(s, start, |d|);
    assert s[start + |d|] == ')';
    assert MatchAt(s, 0);
    assert MatchDigits(s, 0) == d;
    DecimalRoundTrip(n);
  }

  /** A digit run of length `len` followed by a non-digit is the whole run. */
  lemma {:induction false} DigitRunCovers(s: string, i: nat, len: nat)
    requires i + len < |s|
    requires forall k :: i <= k < i + len ==> IsDigit(s[k])
    requires !IsDigit(s[i + len])
    ensures DigitRun(s, i) == len
    decreases len
  {
    if len > 0 {
      DigitRunCovers(s, i + 1, len - 1);
    }
  }

  // ---------------------------------------------------------------- validateStruct

  datatype FieldValue =
    | StringValue(s: string)
    | StructValue(fields: seq<Field>)
    | OtherValue

  /** One struct field: its name, its `mcp` tag (empty when absent) and its value. */
  datatype Field = Field(name: string, tag: string, value: FieldValue)

  /** "field %s exceeds maximum length of %d" */
  datatype ValidationError = ExceedsMaxLength(field: string, limit: int)

  /** The maximum length a tag imposes: only when its `validation` entry mentions `maxLength`. */
  function TagLimit(tag: string): Option<int> {
    var m := TagMap(Split(tag, ','));
    if "validation" in m && Contains(m["validation"], "maxLength") then Some(ExtractMaxLength(m["validation"]))
    else None
  }

  /** The failure of a tagged string field longer in bytes than its tag's limit. */
  function LimitError(f: Field): (e: Option<ValidationError>)
    ensures e.Some? ==> e.value.field == f.name && Some(e.value.limit) == TagLimit(f.tag)
  {
    if TagLimit(f.tag).Some? && f.value.StringValue? && Utf8Len(f.value.s) > TagLimit(f.tag).value
    then Some(ExceedsMaxLength(f.name, TagLimit(f.tag).value))
    else None
  }

  /**
   * The error one field fails with: an untagged field is skipped; a tagged one fails on its
   * limit, and a tagged struct field is then checked recursively.
   */
  function FieldError(f: Field): Option<ValidationError>
    decreases f
  {
    if f.tag == "" then None
    else if LimitError(f).Some? then LimitError(f)
    else if f.value.StructValue? then StructError(f.value.fields)
    else None
  }

  /** The error a struct value fails with: the first failing field's, in field order. */
  function StructError(fields: seq<Field>): Option<ValidationError>
    decreases fields
  {
    if |fields| == 0 then None
    else if FieldError(fields[0]).Some? then FieldError(fields[0])
    else StructError(fields[1..])
  }

  /** Splitting the field list: the first failure of the whole is the first failure of its parts. */
  lemma {:induction false} StructErrorAppend(a: seq<Field>, b: seq<Field>)
    ensures StructError(a + b) == if StructError(a).Some? then StructError(a) else StructError(b)
    decreases |a|
  {
    if |a| > 0 {
      assert (a + b)[0] == a[0];
      assert (a + b)[1..] == a[1..] + b;
      StructErrorAppend(a[1..], b);
      assert StructError(a + b) == if FieldError(a[0]).Some? then FieldError(a[0]) else StructError(a[1..] + b);
    } else {
      assert a + b == b;
    }
  }

  /** An untagged field is skipped entirely, including any struct inside it. */
  lemma UntaggedFieldSkipped(f: Field, rest: seq<Field>)
    requires f.tag == ""
    ensures StructError([f] + rest) == StructError(rest)
  {
    assert ([f] + rest)[0] == f && ([f] + rest)[1..] == rest;
  }

  /** The first field that fails names the failure, whatever the fields after it hold. */
  lemma FirstFailureReported(before: seq<Field>, f: Field, after: seq<Field>)
    requires StructError(before).None? && FieldError(f).Some?
    ensures StructError(before + [f] + after) == FieldError(f)
  {
    StructErrorAppend(before, [f] + after);
    assert before + [f] + after == before + ([f] + after);
  }

  /** A tagged string field over its limit fails, naming the field and the limit. */
  lemma LongStringFails(name: string, tag: string, s: string)
    requires tag != "" && TagLimit(tag).Some? && Utf8Len(s) > TagLimit(tag).value
    ensures FieldError(Field(name, tag, StringValue(s))) == Some(ExceedsMaxLength(name, TagLimit(tag).value))
  {
  }

  /**
   * A `validation` entry that mentions `maxLength` but holds no `maxLength(<digits>)` sets
   * the limit to 0: then every tagged non-empty string field fails.
   */
  lemma UnparsableLimitIsZero(name: string, tag: string, s: string)
    requires tag != "" && |s| > 0
    requires var m := TagMap(Split(tag, ','));
      "validation" in m && Contains(m["validation"], "maxLength") && LeftmostMatch(m["validation"], 0).None?
    ensures FieldError(Field(name, tag, StringValue(s))) == Some(ExceedsMaxLength(name, 0))
  {
  }

  /** `validateStruct`: an indexed loop over the fields with early return and recursion. */
  method ValidateStruct(fields: seq<Field>) returns (err: Option<ValidationError>)
    ensures err == StructError(fields)
    decreases fields
  {
    for i := 0 to |fields|
      invariant StructError(fields) == StructError(fields[i..])
    {
      var f := fields[i];
      assert fields[i..][0] == f && fields[i..][1..] == fields[i + 1..];
      if f.tag == "" {
        continue;
      }
      var tagMap := ParseTag(f.tag);
      if "validation" in tagMap {
        var validation := tagMap["validation"];
        if Contains(validation, "maxLength") {
          var length := ExtractMaxLength(validation);
          if f.value.StringValue? && Utf8Len(f.value.s) > length {
            return Some(ExceedsMaxLength(f.name, length));
          }
        }
      }
      if f.value.StructValue? {
        var inner := ValidateStruct(f.value.fields);
        if inner.Some? {
          return inner;
        }
      }
    }
    assert fields[|fields|..] == [];
    err := None;
  }
}
