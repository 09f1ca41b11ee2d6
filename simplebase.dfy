/** The simple chain (chain/simplebase.py): the stand-in prompt generator,
    the named output callbacks `to_json` and `to_upper`, callback
    resolution, and the chain that wraps a prompt and its generated text in
    a two-key dictionary before handing it to the callback. */
module SimpleBase {
  import opened Dicts
  import opened Python

  const PromptLead := "Answer the following for prompt: "
  const ContextLead := ". Pre-context: "

  /** LLMSetup.generate_prompt(prompt, pre_context=None). */
  function GeneratePrompt(prompt: string, preContext: Option<string>): (text: string)
    ensures |text| == |PromptLead| + |prompt| + |ContextLead| + |RenderOptional(preContext)|
    ensures text[..|PromptLead|] == PromptLead
    ensures text[|PromptLead|..|PromptLead| + |prompt|] == prompt
    ensures text[|text| - |RenderOptional(preContext)|..] == RenderOptional(preContext)
  {
    PromptLead + prompt + ContextLead + RenderOptional(preContext)
  }

  /** A missing pre-context and the pre-context "None" give the same prompt. */
  lemma NoneRendersAsNone(prompt: string)
    ensures GeneratePrompt(prompt, None) == GeneratePrompt(prompt, Some("None"))
  {
  }

  /** The callback a chain carries: none (falsy), a name to look up, or a
      callable of the caller's, applied to the output dictionary. */
  datatype Callback = NoCallback | Named(name: string) | Custom(apply: PyDict<Value> -> Outcome<Value>)

  /** The functions a callback can resolve to. */
  datatype CallbackFn = ToJson | ToUpperFn | CustomFn(f: PyDict<Value> -> Outcome<Value>)

  /** `callback_mapping.get(name)` */
  function CallbackMapping(name: string): (f: Option<CallbackFn>)
    ensures f.Some? <==> name == "to_json" || name == "to_upper"
    ensures name == "to_json" ==> f == Some(ToJson)
    ensures name == "to_upper" ==> f == Some(ToUpperFn)
  {
    if name == "to_json" then Some(ToJson)
    else if name == "to_upper" then Some(ToUpperFn)
    else None
  }

  /** A string callback goes through `callback_mapping.get(callback,
      to_json)`; the result is what `if callback:` then applies, `None` when
      nothing is applied. */
  function ResolveCallback(cb: Callback): (f: Option<CallbackFn>)
  {
    match cb
    case NoCallback => None
    case Named(n) => if n in {"to_json", "to_upper"} then CallbackMapping(n) else Some(ToJson)
    case Custom(g) => Some(CustomFn(g))
  }

  /** Only the absent callback applies nothing; every name other than
      "to_upper", the empty name included, serialises to JSON. */
  lemma ResolveCallbackCases(cb: Callback)
    ensures ResolveCallback(cb).None? <==> cb.NoCallback?
    ensures cb.Named? && cb.name != "to_upper" ==> ResolveCallback(cb) == Some(ToJson)
    ensures cb == Named("to_upper") ==> ResolveCallback(cb) == Some(ToUpperFn)
    ensures cb.Custom? ==> ResolveCallback(cb) == Some(CustomFn(cb.apply))
  {
  }

  /** `value.upper() if isinstance(value, str) else value` */
  function UpperValue(v: Value): Value {
    if v.Str? then Str(Upper(v.s)) else v
  }

  /** The comprehension of to_upper over the keys `keys`, in order: each
      upper-cased key is assigned in turn, so of keys that collide after
      upper-casing the last one's value stays, at the first one's position. */
  function UpperEntries(keys: seq<string>, entries: map<string, Value>): (r: PyDict<Value>)
    requires forall i | 0 <= i < |keys| :: keys[i] in entries
    ensures r.Valid()
    ensures |r.keys| <= |keys|
  {
    if keys == [] then Empty()
    else
      var last := keys[|keys| - 1];
      UpperEntries(keys[..|keys| - 1], entries).Put(Upper(last), UpperValue(entries[last]))
  }

  /** The keys of the comprehension are the upper-cased input keys. */
  lemma {:induction false} UpperEntriesKeys(keys: seq<string>, entries: map<string, Value>)
    requires forall i | 0 <= i < |keys| :: keys[i] in entries
    ensures forall k :: k in UpperEntries(keys, entries).entries <==> exists i | 0 <= i < |keys| :: Upper(keys[i]) == k
  {
    if keys != [] {
      var init := keys[..|keys| - 1];
      var last := keys[|keys| - 1];
      UpperEntriesKeys(init, entries);
      var r := UpperEntries(keys, entries);
      forall k ensures k in r.entries <==> exists i | 0 <= i < |keys| :: Upper(keys[i]) == k {
        if k in r.entries && k != Upper(last) {
          var i :| 0 <= i < |init| && Upper(init[i]) == k;
          assert Upper(keys[i]) == k;
        }
        if exists i | 0 <= i < |keys| :: Upper(keys[i]) == k {
          var i :| 0 <= i < |keys| && Upper(keys[i]) == k;
          if i < |init| {
            assert Upper(init[i]) == k;
          }
        }
      }
    }
  }

  /** `keys[i]`, upper-cased, is the first of `keys` to give that key. */
  predicate FirstUpper(keys: seq<string>, i: nat)
    requires i < |keys|
  {
    forall m | 0 <= m < i :: Upper(keys[m]) != Upper(keys[i])
  }

  /** The upper-cased keys at their first occurrences, in input order. */
  function FirstUppers(keys: seq<string>): seq<string> {
    if keys == [] then []
    else FirstUppers(keys[..|keys| - 1]) + (if FirstUpper(keys, |keys| - 1) then [Upper(keys[|keys| - 1])] else [])
  }

  /** The comprehension's key order: each upper-cased key sits where it
      first appears. */
  lemma {:induction false} UpperEntriesOrder(keys: seq<string>, entries: map<string, Value>)
    requires forall i | 0 <= i < |keys| :: keys[i] in entries
    ensures UpperEntries(keys, entries).keys == FirstUppers(keys)
  {
    if keys != [] {
      var init := keys[..|keys| - 1];
      var last := keys[|keys| - 1];
      UpperEntriesOrder(init, entries);
      UpperEntriesKeys(init, entries);
      if !FirstUpper(keys, |keys| - 1) {
        var m :| 0 <= m < |keys| - 1 && Upper(keys[m]) == Upper(last);
        assert Upper(init[m]) == Upper(last);
      } else {
        assert forall m | 0 <= m < |init| :: Upper(init[m]) != Upper(last) by {
          forall m | 0 <= m < |init| ensures Upper(init[m]) != Upper(last) {
            assert init[m] == keys[m];
          }
        }
      }
    }
  }

  /** to_upper(data) */
  function ToUpper(data: PyDict<Value>): (r: PyDict<Value>)
    requires data.Valid()
  {
    UpperEntries(data.keys, data.entries)
  }

  /** to_upper: the result's keys are exactly the upper-cased input keys,
      there are no more of them than input keys, each sits where it first
      appears, and a key that no later
      key collides with keeps its own value, upper-cased if it is a string. */
  lemma {:induction false} ToUpperEntries(data: PyDict<Value>, i: nat)
    requires data.Valid() && i < |data.keys|
    requires forall j | i < j < |data.keys| :: Upper(data.keys[j]) != Upper(data.keys[i])
    ensures ToUpper(data).Valid() && |ToUpper(data).keys| <= |data.keys|
    ensures forall k :: k in ToUpper(data).entries <==> exists j | 0 <= j < |data.keys| :: Upper(data.keys[j]) == k
    ensures Upper(data.keys[i]) in ToUpper(data).entries
    ensures ToUpper(data).entries[Upper(data.keys[i])] == UpperValue(data.entries[data.keys[i]])
    ensures ToUpper(data).keys == FirstUppers(data.keys)
  {
    assert data.keys[i] in data.entries;
    UpperEntriesKeys(data.keys, data.entries);
    UpperEntriesOrder(data.keys, data.entries);
    LastWins(data.keys, data.entries, i);
  }

  lemma {:induction false} LastWins(keys: seq<string>, entries: map<string, Value>, i: nat)
    requires forall j | 0 <= j < |keys| :: keys[j] in entries
    requires i < |keys|
    requires forall j | i < j < |keys| :: Upper(keys[j]) != Upper(keys[i])
    ensures Upper(keys[i]) in UpperEntries(keys, entries).entries
    ensures UpperEntries(keys, entries).entries[Upper(keys[i])] == UpperValue(entries[keys[i]])
  {
    var init := keys[..|keys| - 1];
    if i < |keys| - 1 {
      LastWins(init, entries, i);
    }
  }

  /** The comprehension over two keys: two assignments in order. */
  lemma TwoKeys(k1: string, k2: string, entries: map<string, Value>)
    requires k1 in entries && k2 in entries
    ensures UpperEntries([k1, k2], entries) ==
              Empty().Put(Upper(k1), UpperValue(entries[k1])).Put(Upper(k2), UpperValue(entries[k2]))
  {
    assert [k1, k2][..1] == [k1];
    assert [k1][..0] == [];
  }

  /** Keys that collide after upper-casing merge: `{"a": x, "A": y}`
      becomes `{"A": y'}`, one entry instead of two. */
  lemma CollidingKeysMerge(x: Value, y: Value)
    ensures var data := Empty().Put("a", x).Put("A", y);
            ToUpper(data).keys == ["A"] && ToUpper(data).entries["A"] == UpperValue(y)
  {
    var data := Empty<Value>().Put("a", x).Put("A", y);
    assert "a" != "A";
    assert data.keys == ["a", "A"];
    UpperLetters();
    TwoKeys("a", "A", data.entries);
    var first := Empty<Value>().Put("A", UpperValue(x));
    assert first.keys == ["A"];
    assert ToUpper(data) == first.Put("A", UpperValue(y));
  }

  lemma UpperLetters()
    ensures Upper("a") == "A" && Upper("A") == "A"
    ensures Upper("prompt") == "PROMPT" && Upper("generated_code") == "GENERATED_CODE"
  {
    assert UpperChar('a') == 'A';
  }

  /** The dictionary both chains build: `{k1: Str(v1), k2: Str(v2)}`. */
  function PairRecord(k1: string, v1: string, k2: string, v2: string): (d: PyDict<Value>)
    requires k1 != k2
    ensures d.Valid() && d.keys == [k1, k2]
    ensures d.entries == map[k1 := Str(v1), k2 := Str(v2)]
  {
    Empty().Put(k1, Str(v1)).Put(k2, Str(v2))
  }

  /** `output = callback(output)` under `if callback:`, for a resolved
      callback. `dumps` is json.dumps. */
  function ApplyCallback(cb: Callback, output: PyDict<Value>, dumps: PyDict<Value> -> string): (r: Outcome<Value>)
    requires output.Valid()
    ensures cb.NoCallback? ==> r == Returned(Dict(output))
    ensures ResolveCallback(cb) == Some(ToJson) ==> r == Returned(Str(dumps(output)))
    ensures ResolveCallback(cb) == Some(ToUpperFn) ==> r == Returned(Dict(ToUpper(output)))
    ensures cb.Custom? ==> r == cb.apply(output)
  {
    match ResolveCallback(cb)
    case None => Returned(Dict(output))
    case Some(ToJson) => Returned(Str(dumps(output)))
    case Some(ToUpperFn) => Returned(Dict(ToUpper(output)))
    case Some(CustomFn(f)) => f(output)
  }

  /** SimpleChain, with its defaults: callback "to_json", no memory. */
  datatype SimpleChain = SimpleChain(prompt: string, callback: Callback := Named("to_json"), memory: Option<string> := None)

  /** execute_simple_chain */
  function ExecuteSimpleChain(chain: SimpleChain, dumps: PyDict<Value> -> string): (r: Outcome<Value>)
    ensures var output := PairRecord("prompt", chain.prompt, "generated_code", GeneratePrompt(chain.prompt, chain.memory));
            r == ApplyCallback(chain.callback, output, dumps)
  {
    var generatedCode := GeneratePrompt(chain.prompt, chain.memory);
    var output := PairRecord("prompt", chain.prompt, "generated_code", generatedCode);
    ApplyCallback(chain.callback, output, dumps)
  }

  /** With the defaults the chain returns the JSON text of
      `{"prompt": p, "generated_code": ...}` with "None" as pre-context. */
  lemma SimpleChainDefaults(prompt: string, dumps: PyDict<Value> -> string)
    ensures ExecuteSimpleChain(SimpleChain(prompt), dumps) ==
              Returned(Str(dumps(PairRecord("prompt", prompt, "generated_code",
                                            PromptLead + prompt + ContextLead + "None"))))
  {
  }

  /** Under "to_upper" the chain returns the two keys upper-cased, in the
      same order, with both string values upper-cased. */
  lemma {:induction false} SimpleChainToUpper(prompt: string, memory: Option<string>, dumps: PyDict<Value> -> string)
    ensures var code := GeneratePrompt(prompt, memory);
            ExecuteSimpleChain(SimpleChain(prompt, Named("to_upper"), memory), dumps) ==
              Returned(Dict(PairRecord("PROMPT", Upper(prompt), "GENERATED_CODE", Upper(code))))
  {
    var code := GeneratePrompt(prompt, memory);
    var output := PairRecord("prompt", prompt, "generated_code", code);
    UpperLetters();
    UpperPair("prompt", prompt, "generated_code", code);
  }

  /** Upper-casing a two-key record whose upper-cased keys differ. */
  lemma {:induction false} UpperPair(k1: string, v1: string, k2: string, v2: string)
    requires Upper(k1) != Upper(k2)
    ensures k1 != k2
    ensures ToUpper(PairRecord(k1, v1, k2, v2)) == PairRecord(Upper(k1), Upper(v1), Upper(k2), Upper(v2))
  {
    var d := PairRecord(k1, v1, k2, v2);
    TwoKeys(k1, k2, d.entries);
  }
}
