/** Choosing the provider from the requested model name (best-effort
    substring matching, not a registry of known models). */
module Routing {
  import opened Wrappers
  import opened Text

  /** The model used when the request names none. */
  const DefaultModel: string := "gemini-2.5-flash"

  /** Name fragments that mark a model served by Groq. */
  const GroqMarkers: seq<string> := ["llama", "mixtral", "gemma"]

  /** The two provider families. */
  datatype Provider = Groq | Gemini

  /** `selectedModel || 'gemini-2.5-flash'`: an absent or empty name means the default. */
  function ResolveModel(selected: Option<string>): (name: string)
    ensures name != ""
    ensures selected.Some? && selected.value != "" ==> name == selected.value
    ensures selected.None? || selected.value == "" ==> name == DefaultModel
  {
    match selected
    case None => DefaultModel
    case Some(s) => OrElse(s, DefaultModel)
  }

  /** `isGroqModel`: the name contains `llama`, `mixtral` or `gemma`. */
  predicate IsGroqModel(name: string)
  {
    Includes(name, "llama") || Includes(name, "mixtral") || Includes(name, "gemma")
  }

  function ProviderFor(name: string): Provider
  {
    if IsGroqModel(name) then Groq else Gemini
  }

  /** A Groq model accepts images only if its name contains `vision`. */
  predicate SupportsVision(name: string)
  {
    Includes(name, "vision")
  }

  /** Routing in terms of occurrences: a name goes to Groq exactly when one
      of the markers occurs in it somewhere. */
  lemma RoutesToGroqIff(name: string)
    ensures ProviderFor(name) == Groq <==>
              exists marker, i :: marker in GroqMarkers && OccursAt(name, marker, i)
  {
    IncludesIff(name, "llama");
    IncludesIff(name, "mixtral");
    IncludesIff(name, "gemma");
    if ProviderFor(name) == Groq {
      var marker := if Includes(name, "llama") then "llama"
                    else if Includes(name, "mixtral") then "mixtral" else "gemma";
      assert marker in GroqMarkers;
      var i :| OccursAt(name, marker, i);
    }
  }

  /** No marker occurs in the default model name, so a request without a
      model always goes to Gemini. */
  lemma DefaultRoutesToGemini(selected: Option<string>)
    requires selected.None? || selected.value == ""
    ensures ResolveModel(selected) == DefaultModel
    ensures ProviderFor(ResolveModel(selected)) == Gemini
  {
    DefaultLacksLlama();
    DefaultLacksMixtral();
    DefaultLacksGemma();
  }

  /** A marker whose first character is absent from every position where an
      occurrence could start does not occur. */
  lemma AbsentFromWindow(s: string, t: string)
    requires t != [] && |t| <= |s|
    requires t[0] !in s[..|s| - |t| + 1]
    ensures !Includes(s, t)
  {
    IncludesIff(s, t);
  }

  /** `llama`: no `l` where an occurrence could start. */
  lemma DefaultLacksLlama()
    ensures !Includes(DefaultModel, "llama")
  {
    var s := DefaultModel;
    assert s[..12] == ['g', 'e', 'm', 'i', 'n', 'i', '-', '2', '.', '5', '-', 'f'];
    AbsentFromWindow(s, "llama");
  }

  /** `gemma`: the only `g` starts `gemi`. */
  lemma DefaultLacksGemma()
    ensures !Includes(DefaultModel, "gemma")
  {
    var s, t := DefaultModel, "gemma";
    assert s[1..][..11] == ['e', 'm', 'i', 'n', 'i', '-', '2', '.', '5', '-', 'f'];
    AbsentFromWindow(s[1..], t);
    assert s[..5] != t by { assert s[3] != t[3]; }
  }

  /** `mixtral`: the only `m` starts `mini`. */
  lemma DefaultLacksMixtral()
    ensures !Includes(DefaultModel, "mixtral")
  {
    var s, t := DefaultModel, "mixtral";
    assert s[3..][..7] == ['i', 'n', 'i', '-', '2', '.', '5'];
    AbsentFromWindow(s[3..], t);
    assert s[2..][..7] != t by { assert s[4] != t[2]; }
    assert s[1..][..7] != t by { assert s[1] != t[0]; }
    assert s[..7] != t by { assert s[0] != t[0]; }
  }
}
