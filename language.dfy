/** `YepCodeCodeExecutor._normalize_language` and the set of languages the
    executor accepts. */
module Language {
  import opened Text

  /** `SUPPORTED_LANGUAGES`, in the order the error message lists them. */
  const SupportedLanguages: seq<string> := ["python", "javascript"]

  const JavaScriptAliases: seq<string> := ["js", "javascript"]
  const PythonAliases: seq<string> := ["python", "py"]

  /** A normalised name the remote runtime accepts. */
  predicate Supported(lang: string)
  {
    lang in SupportedLanguages
  }

  /** Lower-cases the name and maps each alias to its canonical name; any other
      name is returned lower-cased. The result is lower case; it is "javascript"
      exactly when the name is "js" or "javascript" in any mix of cases, and
      "python" exactly when it is "py" or "python"; so it is supported exactly
      when the name is one of the four aliases. */
  function Normalize(name: string): (r: string)
    ensures IsLower(r)
    ensures r == "javascript" <==> Lower(name) in JavaScriptAliases
    ensures r == "python" <==> Lower(name) in PythonAliases
    ensures Supported(r) <==> Lower(name) in JavaScriptAliases + PythonAliases
  {
    assert IsLower("javascript") && IsLower("python");
    var lang := Lower(name);
    if lang in JavaScriptAliases then "javascript"
    else if lang in PythonAliases then "python"
    else lang
  }

  /** Any other name passes through lower-cased. */
  lemma NormalizeOther(name: string)
    requires Lower(name) !in JavaScriptAliases + PythonAliases
    ensures Normalize(name) == Lower(name)
    ensures !Supported(Normalize(name))
  {
  }

  /** Normalisation ignores case. */
  lemma NormalizeIgnoresCase(a: string, b: string)
    requires Lower(a) == Lower(b)
    ensures Normalize(a) == Normalize(b)
  {
  }

  /** Normalising a normalised name changes nothing. */
  lemma NormalizeIdempotent(name: string)
    ensures Normalize(Normalize(name)) == Normalize(name)
  {
    LowerFixesLower(Normalize(name));
    var lang := Lower(name);
    if lang !in JavaScriptAliases && lang !in PythonAliases {
      assert Normalize(name) == lang;
    }
  }
}
