/** Supported catalog languages (internal/transport/http/v1/dto/language.go).
    The repository and prompt code use a `Language` type with this
    behaviour. */
module Languages {
  import opened Results
  import Strings

  type Language = string

  const LanguageZH: Language := "ZH"
  const LanguageEN: Language := "EN"

  const SupportedLanguages: seq<Language> := [LanguageZH, LanguageEN]

  /** Accepts exactly the two upper-case codes; anything else fails with a
      message naming the rejected value. */
  function Validate(l: Language): (r: Check)
    ensures r.Pass? <==> l in SupportedLanguages
    ensures r.Fail? ==> r.error == "unsupported language: " + l
  {
    if l == LanguageZH || l == LanguageEN then Pass
    else Fail("unsupported language: " + l)
  }

  /** The lower-case key of a language, used in collection and document
      names. */
  function Get(l: Language): (r: string)
    ensures |r| == |l|
    ensures forall i :: 0 <= i < |r| ==> !Strings.IsUpper(r[i])
    ensures forall i :: 0 <= i < |l| && !Strings.IsUpper(l[i]) ==> r[i] == l[i]
    ensures forall i :: 0 <= i < |l| && Strings.IsUpper(l[i]) ==>
      Strings.IsLower(r[i]) && r[i] as int - 'a' as int == l[i] as int - 'A' as int
  {
    Strings.ToLower(l)
  }

  /** Validation is case-sensitive: only "ZH" and "EN" pass. */
  lemma ValidateIsCaseSensitive()
    ensures Validate("EN").Pass? && Validate("ZH").Pass?
    ensures Validate("en").Fail? && Validate("zh").Fail?
    ensures Validate("").Fail? && Validate("En").Fail?
  {
  }

  lemma GetOfSupported()
    ensures Get(LanguageEN) == "en" && Get(LanguageZH) == "zh"
  {
    assert Get(LanguageEN) == ['e', 'n'];
    assert Get(LanguageZH) == ['z', 'h'];
  }

  lemma GetIdempotent(l: Language)
    ensures Get(Get(l)) == Get(l)
  {
    Strings.ToLowerIdempotent(l);
  }

  /** The keys of distinct supported languages differ, so each language
      gets a partition of its own. */
  lemma GetSeparatesSupported(a: Language, b: Language)
    requires Validate(a).Pass? && Validate(b).Pass?
    ensures Get(a) == Get(b) <==> a == b
  {
    GetOfSupported();
  }
}
