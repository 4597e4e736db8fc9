/**
 * Choosing the interface language of a page (`select_language` in
 * src/main.rs): a `lang` cookie naming a supported language wins, then the
 * best supported match of the `Accept-Language` header, then English.
 */
module Language {
  import opened Wrappers

  /** The supported languages, in the order they are tried. */
  const LANGUAGES: seq<string> := ["en", "de"]

  /**
   * The cookie value with one pair of surrounding double quotes removed, as
   * the cookie crate's `value_trimmed` returns it.
   */
  function ValueTrimmed(v: string): (r: string)
    ensures |v| >= 2 && v[0] == '"' && v[|v| - 1] == '"' ==> v == "\"" + r + "\""
    ensures !(|v| >= 2 && v[0] == '"' && v[|v| - 1] == '"') ==> r == v
  {
    if |v| >= 2 && v[0] == '"' && v[|v| - 1] == '"' then v[1..|v| - 1] else v
  }

  /**
   * `select_language`. `cookie` is the value of the `lang` cookie if one was
   * sent; `header` is the `Accept-Language` header if it was sent and is
   * visible ASCII; `intersection` is the header matcher, which lists the
   * supported languages the header accepts, best first.
   */
  function SelectLanguage(cookie: Option<string>, header: Option<string>,
                          intersection: (string, seq<string>) -> seq<string>): (r: string)
    ensures cookie.Some? && ValueTrimmed(cookie.value) in LANGUAGES ==> r == ValueTrimmed(cookie.value)
    ensures !(cookie.Some? && ValueTrimmed(cookie.value) in LANGUAGES) ==>
      if header.Some? && |intersection(header.value, LANGUAGES)| > 0
      then r == intersection(header.value, LANGUAGES)[0]
      else r == "en"
  {
    if cookie.Some? && CookieLanguage(ValueTrimmed(cookie.value), LANGUAGES).Some? then
      CookieLanguage(ValueTrimmed(cookie.value), LANGUAGES).value
    else if header.Some? && |intersection(header.value, LANGUAGES)| > 0 then
      intersection(header.value, LANGUAGES)[0]
    else
      "en"
  }

  /** The loop over the languages: the first one equal to the cookie value. */
  function CookieLanguage(value: string, languages: seq<string>): (r: Option<string>)
    ensures r.Some? <==> value in languages
    ensures r.Some? ==> r.value == value
  {
    if languages == [] then None
    else if value == languages[0] then Some(languages[0])
    else CookieLanguage(value, languages[1..])
  }

  /** The chosen language is supported whenever the matcher only lists languages it was offered. */
  lemma SelectedIsSupported(cookie: Option<string>, header: Option<string>,
                            intersection: (string, seq<string>) -> seq<string>)
    requires forall h, langs :: forall x :: x in intersection(h, langs) ==> x in langs
    ensures SelectLanguage(cookie, header, intersection) in LANGUAGES
  {
    if header.Some? && |intersection(header.value, LANGUAGES)| > 0 {
      assert intersection(header.value, LANGUAGES)[0] in intersection(header.value, LANGUAGES);
    }
  }

  /** A cookie naming a supported language decides, whatever the header says. */
  lemma CookieWins(value: string, header1: Option<string>, header2: Option<string>,
                   intersection: (string, seq<string>) -> seq<string>)
    requires ValueTrimmed(value) in LANGUAGES
    ensures SelectLanguage(Some(value), header1, intersection) == SelectLanguage(Some(value), header2, intersection)
  {
  }

  /** A cookie naming no supported language is ignored rather than rejected. */
  lemma UnknownCookieIgnored(value: string, header: Option<string>,
                             intersection: (string, seq<string>) -> seq<string>)
    requires ValueTrimmed(value) !in LANGUAGES
    ensures SelectLanguage(Some(value), header, intersection) == SelectLanguage(None, header, intersection)
  {
  }

  /** A quoted cookie value selects the language it quotes. */
  lemma QuotedCookie(header: Option<string>, intersection: (string, seq<string>) -> seq<string>)
    ensures SelectLanguage(Some("\"de\""), header, intersection) == "de"
  {
    assert ValueTrimmed("\"de\"") == "de";
  }
}
