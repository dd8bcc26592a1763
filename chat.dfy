/**
 * The one piece of bot.js's chat handling with logic of its own: a plain message is
 * taken as a ticker when it is 2 to 10 ASCII letters (`/^[A-Za-z]{2,10}$/`), and is
 * then upper-cased and looked up.
 */
module Chat {
  import opened Wrappers
  import Providers

  predicate IsAsciiLetter(c: char)
  {
    'A' <= c <= 'Z' || 'a' <= c <= 'z'
  }

  /** `[A-Za-z]*` read left to right, as the regular expression engine scans it. */
  function LettersOnly(t: string): (ok: bool)
  {
    if t == [] then true else IsAsciiLetter(t[0]) && LettersOnly(t[1..])
  }

  /** `/^[A-Za-z]{2,10}$/.test(text)`. */
  predicate IsBareTicker(text: string)
  {
    2 <= |text| <= 10 && LettersOnly(text)
  }

  /** The scan accepts exactly the strings all of whose characters are ASCII letters. */
  lemma {:induction false} LettersOnlyIff(t: string)
    ensures LettersOnly(t) <==> forall i :: 0 <= i < |t| ==> IsAsciiLetter(t[i])
  {
    if t != [] {
      LettersOnlyIff(t[1..]);
      assert forall i :: 1 <= i < |t| ==> t[i] == t[1..][i - 1];
    }
  }

  /** The symbol a plain message asks for, or nothing when it is not a bare ticker. */
  function BareTickerSymbol(text: string): (r: Option<string>)
    ensures r.Some? <==> IsBareTicker(text)
    ensures r.Some? ==>
      && r.value == Providers.ToUpper(text)
      && |r.value| == |text|
      && forall i :: 0 <= i < |text| ==> 'A' <= r.value[i] <= 'Z'
  {
    if IsBareTicker(text) then
      LettersOnlyIff(text);
      Some(Providers.ToUpper(text))
    else None
  }

  /** Every supported ticker passes the check, so each can be asked for by name. */
  lemma SupportedTickersAccepted(s: string)
    requires s in Providers.BinancePair
    ensures IsBareTicker(s) && BareTickerSymbol(s) == Some(s)
  {
    assert 3 <= |s| <= 5 && forall i :: 0 <= i < |s| ==> 'A' <= s[i] <= 'Z';
    UpperCaseWordAccepted(s);
  }

  /** A word of 2 to 10 upper-case letters is accepted and asks for itself. */
  lemma UpperCaseWordAccepted(s: string)
    requires 2 <= |s| <= 10
    requires forall i :: 0 <= i < |s| ==> 'A' <= s[i] <= 'Z'
    ensures IsBareTicker(s) && BareTickerSymbol(s) == Some(s)
  {
    LettersOnlyIff(s);
    assert Providers.ToUpper(s) == s;
  }
}
