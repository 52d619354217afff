/** The admin API's language check
    (internal/transport/http/v1/admin/models/address.go). */
module AdminLanguages {
  import opened Results
  import Strings
  import Languages

  type Language = string

  const SupportedLanguages: seq<Language> := ["ZH", "EN"]

  /** Linear search of `langs` for an exact match, as the source's loop does. */
  function Occurs(l: Language, langs: seq<Language>): (r: bool)
    ensures r <==> exists i :: 0 <= i < |langs| && langs[i] == l
  {
    if |langs| == 0 then false
    else if langs[0] == l then true
    else
      var r := Occurs(l, langs[1..]);
      assert forall i :: 1 <= i < |langs| ==> langs[i] == langs[1..][i - 1];
      r
  }

  /** Exact comparison against the supported codes: no trimming and no case
      folding. */
  function IsValid(l: Language): (r: bool)
    ensures r <==> l == "ZH" || l == "EN"
  {
    Occurs(l, SupportedLanguages)
  }

  function Validate(l: Language): (r: Check)
    ensures r.Pass? <==> IsValid(l)
    ensures r.Fail? ==> Strings.IsInfix(l, r.error)
  {
    if !IsValid(l) then
      var msg := "language [" + l + "] is not supported";
      Strings.InfixOfConcat("language [", l, "] is not supported");
      Fail(msg)
    else
      Pass
  }

  /** The admin check and the public API's check accept the same codes. */
  lemma AgreesWithPublicValidation(l: Language)
    ensures Validate(l).Pass? <==> Languages.Validate(l).Pass?
  {
  }
}
