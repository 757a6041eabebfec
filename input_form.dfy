/** The submit handler of the URL form (components/InputForm.tsx). */
module InputForm {

  import opened Wrappers
  import opened Types
  import opened Text

  /** The trimmed input, with `https://` in front unless it already starts with `http`. */
  function NormalizeUrl(raw: string): (url: string)
    ensures StartsWith(url, "http")
    ensures url == Trim(raw) || url == "https://" + Trim(raw)
    ensures url == Trim(raw) <==> StartsWith(Trim(raw), "http")
  {
    var t := Trim(raw);
    if StartsWith(t, "http") then t
    else
      assert ("https://" + t)[..4] == "http";
      "https://" + t
  }

  /** `handleSubmit`: nothing is submitted for an empty field. */
  function HandleSubmit(websiteUrl: string): (r: Option<UserInputs>)
    ensures r.None? <==> websiteUrl == ""
    ensures r.Some? ==> r.value.websiteUrl == NormalizeUrl(websiteUrl)
  {
    if websiteUrl == "" then None else Some(UserInputs(NormalizeUrl(websiteUrl)))
  }

  /** A normalised URL has no white space at either end. */
  lemma NormalizedHasNoEdgeWhiteSpace(raw: string)
    ensures NoEdgeWhiteSpace(NormalizeUrl(raw))
  {
    var t := Trim(raw);
    var u := NormalizeUrl(raw);
    if u != t {
      assert u == "https://" + t;
      assert u[0] == 'h';
      if t == [] {
        assert u[|u| - 1] == '/';
      } else {
        assert u[|u| - 1] == t[|t| - 1];
      }
    }
  }

  /** Normalising an already normalised URL returns it unchanged. */
  lemma NormalizeIdempotent(raw: string)
    ensures NormalizeUrl(NormalizeUrl(raw)) == NormalizeUrl(raw)
  {
    NormalizedHasNoEdgeWhiteSpace(raw);
  }

  /**
   * The empty-field guard tests the untrimmed text, so input made only of white space
   * is submitted, as the bare scheme.
   */
  lemma WhiteSpaceOnlySubmitsScheme(websiteUrl: string)
    requires websiteUrl != "" && AllWhiteSpace(websiteUrl)
    ensures HandleSubmit(websiteUrl) == Some(UserInputs("https://"))
  {
    assert Trim(websiteUrl) == [];
    assert "https://" + [] == "https://";
  }

  /** A bare domain gains the scheme. */
  lemma BareDomainGainsScheme()
    ensures HandleSubmit("example.com") == Some(UserInputs("https://example.com"))
  {
    var raw := "example.com";
    assert NoEdgeWhiteSpace(raw);
    assert raw[..4][0] != "http"[0];
    assert "https://" + raw == "https://example.com";
  }

  /** Any text that starts with `http`, even the domain `httpbin.org`, gets no prefix. */
  lemma HttpPrefixedDomainKept()
    ensures HandleSubmit("httpbin.org") == Some(UserInputs("httpbin.org"))
  {
    assert NoEdgeWhiteSpace("httpbin.org");
    assert "httpbin.org"[..4] == "http";
  }
}
