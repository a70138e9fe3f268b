/** The parts of the agent configuration flow that compute something: the display name
    of a model file, the entry title, the clean-up of the LLM-API selection and the
    filtering of stored API ids on reconfigure. */
module ConfigFlow {
  import opened Wrappers
  import opened Text
  import opened Json

  const LlmHassApiKey := "llm_hass_api"
  const ModelKey := "model"
  const DefaultModel := "Agent"
  const TitleSuffix := " \U{2013} LLM Agent"
  const GgufSuffix := ".gguf"

  predicate IsSeparator(c: char) {
    c == '/' || c == '\\'
  }

  /** Whether the stripped name ends in `.gguf`, ignoring the case of the letters. */
  predicate EndsWithGguf(t: string) {
    |t| >= 5 && LowerString(t[|t| - 5..]) == GgufSuffix
  }

  /** The position just after the last path separator, or 0 when there is none. */
  function SegmentStart(t: string): (k: nat)
    ensures k <= |t|
    ensures k > 0 ==> IsSeparator(t[k - 1])
    ensures forall i :: k <= i < |t| ==> !IsSeparator(t[i])
  {
    if t == [] then 0
    else if IsSeparator(t[|t| - 1]) then |t|
    else SegmentStart(t[..|t| - 1])
  }

  lemma GgufHasNoSeparator(t: string)
    requires EndsWithGguf(t)
    ensures forall i :: |t| - 5 <= i < |t| ==> !IsSeparator(t[i])
  {
    forall i | |t| - 5 <= i < |t| ensures !IsSeparator(t[i]) {
      assert LowerString(t[|t| - 5..])[i - (|t| - 5)] == Lower(t[i]);
    }
  }

  /** The leftmost match of `([^/\\]*)\.gguf$` on the stripped name, case-insensitively:
      its group is the last path segment without the extension. Any other name is
      returned exactly as given. */
  function StripModelPath(name: string): (r: string)
  {
    var t := Strip(name);
    if EndsWithGguf(t) then
      GgufHasNoSeparator(t);
      t[SegmentStart(t)..|t| - 5]
    else name
  }

  /** On a match the result holds no separator, and the stripped name is a path prefix
      (empty or ending in a separator), the result and the extension, in that order. */
  lemma StripModelPathMatch(name: string)
    requires EndsWithGguf(Strip(name))
    ensures var r := StripModelPath(name); var t := Strip(name);
      && (forall i :: 0 <= i < |r| ==> !IsSeparator(r[i]))
      && |r| + 5 <= |t|
      && var prefix := t[..|t| - 5 - |r|];
         && (prefix == [] || IsSeparator(prefix[|prefix| - 1]))
         && t == prefix + r + t[|t| - 5..]
  {
    var t := Strip(name);
    GgufHasNoSeparator(t);
    var k := SegmentStart(t);
    var r := t[k..|t| - 5];
    assert StripModelPath(name) == r;
    assert |t| - 5 - |r| == k;
    forall i | 0 <= i < |r| ensures !IsSeparator(r[i]) {
      assert r[i] == t[k + i];
    }
    SplitThree(t, k, |t| - 5);
  }

  lemma SplitThree(t: string, i: nat, j: nat)
    requires i <= j <= |t|
    ensures t == t[..i] + t[i..j] + t[j..]
  {
  }

  /** A name that does not end in `.gguf` is returned unchanged, whitespace included. */
  lemma StripModelPathNoMatch(name: string)
    requires !EndsWithGguf(Strip(name))
    ensures StripModelPath(name) == name
  {
  }

  /** The documented example: `models/x/Bar.GGUF` becomes `Bar`. */
  lemma StripModelPathExample()
    ensures StripModelPath("models/x/Bar.GGUF") == "Bar"
  {
    var s := "models/x/Bar.GGUF";
    assert !IsSpace(s[0]) && !IsSpace(s[|s| - 1]);
    assert LStrip(s) == s;
    assert RStrip(s) == s;
    assert Strip(s) == s;
    assert LowerString(s[|s| - 5..]) == GgufSuffix;
    assert s[..|s| - 1] == "models/x/Bar.GGU";
    assert SegmentStart(s) == 9 by {
      assert IsSeparator(s[8]);
      assert forall i :: 9 <= i < |s| ==> !IsSeparator(s[i]);
    }
    assert s[9..12] == "Bar";
  }

  /** Python truthiness of a JSON value. */
  predicate JsonTruthy(j: Json) {
    match j
    case JNull => false
    case JBool(b) => b
    case JNumber(n) => n != 0
    case JString(s) => s != ""
    case JArray(items) => items != []
    case JObject(fields) => fields != map[]
  }

  /** The entry title: the model's display name followed by " – LLM Agent". */
  function Title(data: map<string, Json>): (r: string)
    requires ModelKey in data ==> data[ModelKey].JString?
    ensures EndsWith(r, TitleSuffix)
    ensures r[..|r| - |TitleSuffix|] == StripModelPath(if ModelKey in data then data[ModelKey].s else DefaultModel)
  {
    StripModelPath(if ModelKey in data then data[ModelKey].s else DefaultModel) + TitleSuffix
  }

  /** The form data the user submitted, edited in place by the flow step. */
  class UserInput {
    var data: map<string, Json>

    constructor(data: map<string, Json>)
      ensures this.data == data
    {
      this.data := data;
    }

    /** An empty, falsy or missing LLM-API selection is removed; anything else stays. */
    method SanitizeLlmApi()
      modifies this
      ensures LlmHassApiKey in old(data) && JsonTruthy(old(data)[LlmHassApiKey]) ==> data == old(data)
      ensures !(LlmHassApiKey in old(data) && JsonTruthy(old(data)[LlmHassApiKey])) ==>
        data == old(data) - {LlmHassApiKey}
      ensures LlmHassApiKey in data ==> JsonTruthy(data[LlmHassApiKey])
    {
      if !(LlmHassApiKey in data && JsonTruthy(data[LlmHassApiKey])) {
        data := data - {LlmHassApiKey};
      }
    }
  }

  datatype FlowEntry = FlowEntry(title: string, data: map<string, Json>)

  /** The create and reconfigure steps on submitted data: sanitise, then title the entry
      after the model. */
  method SubmitAgent(input: UserInput) returns (entry: FlowEntry)
    requires ModelKey in input.data ==> input.data[ModelKey].JString?
    modifies input
    ensures entry.data == input.data
    ensures entry.data.Keys == old(input.data).Keys - (if LlmHassApiKey in old(input.data) && JsonTruthy(old(input.data)[LlmHassApiKey]) then {} else {LlmHassApiKey})
    ensures forall k :: k in entry.data ==> entry.data[k] == old(input.data)[k]
    ensures entry.title == Title(old(input.data))
  {
    input.SanitizeLlmApi();
    assert ModelKey in input.data <==> ModelKey in old(input.data);
    entry := FlowEntry(Title(input.data), input.data);
  }

  /** The stored API ids that are still available, in their stored order. */
  function FilterApiIds(stored: seq<string>, valid: set<string>): (r: seq<string>)
    ensures |r| <= |stored|
    ensures forall x :: x in r <==> x in stored && x in valid
  {
    if stored == [] then []
    else (if stored[0] in valid then [stored[0]] else []) + FilterApiIds(stored[1..], valid)
  }

  /** Filtering keeps the stored order: it distributes over concatenation. */
  lemma {:induction false} FilterApiIdsDistributes(a: seq<string>, b: seq<string>, valid: set<string>)
    ensures FilterApiIds(a + b, valid) == FilterApiIds(a, valid) + FilterApiIds(b, valid)
    decreases |a|
  {
    if a == [] {
      assert a + b == b;
    } else {
      assert (a + b)[1..] == a[1..] + b;
      FilterApiIdsDistributes(a[1..], b, valid);
    }
  }

  /** Filtering twice is filtering once. */
  lemma {:induction false} FilterApiIdsIdempotent(stored: seq<string>, valid: set<string>)
    ensures FilterApiIds(FilterApiIds(stored, valid), valid) == FilterApiIds(stored, valid)
    decreases |stored|
  {
    if stored != [] {
      var head := if stored[0] in valid then [stored[0]] else [];
      var tail := FilterApiIds(stored[1..], valid);
      FilterApiIdsDistributes(head, tail, valid);
      FilterApiIdsIdempotent(stored[1..], valid);
      if stored[0] in valid {
        assert [stored[0]][1..] == [];
      }
    }
  }
}
