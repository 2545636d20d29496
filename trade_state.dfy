/** `TradeState` in the Android app's `domain/model/ScanResult.kt`: the
    verdict the app shows, read from the backend's state string. */
module TradeState {
  import opened Wrappers

  datatype TradeState = Buy | Wait | NoTrade | Unknown

  /** Kotlin's `Char.uppercase()` for the letters whose upper case is a
      single ASCII letter: `a`–`z`, the dotless `ı` and the long `ſ`. */
  function UpperChar(c: char): (u: char)
    ensures 'a' <= c <= 'z' ==> 'A' <= u <= 'Z' && u as int == c as int - 32
    ensures !('a' <= u <= 'z')
  {
    if 'a' <= c <= 'z' then (c as int - 32) as char
    else if c == 'ı' then 'I'
    else if c == 'ſ' then 'S'
    else c
  }

  /** `String.uppercase()`, character by character. */
  function Upper(s: string): string {
    seq(|s|, i requires 0 <= i < |s| => UpperChar(s[i]))
  }

  /** No character of `s` changes when upper-cased. */
  predicate IsUpper(s: string) {
    forall i :: 0 <= i < |s| ==> UpperChar(s[i]) == s[i]
  }

  /** `fromString`: upper-case the value, then match the known names. */
  function FromString(value: Option<string>): TradeState {
    match value
    case None => Unknown
    case Some(s) =>
      var u := Upper(s);
      if u == "BUY" then Buy
      else if u == "SETUP FORMING — WAIT" || u == "WAIT" then Wait
      else if u == "NO TRADE" then NoTrade
      else Unknown
  }

  /** `displayName`. */
  function DisplayName(t: TradeState): string {
    match t
    case Buy => "BUY"
    case Wait => "SETUP FORMING — WAIT"
    case NoTrade => "NO TRADE"
    case Unknown => "UNKNOWN"
  }

  // ---------------------------------------------------------------- lemmas

  lemma UpperOfUpper(s: string)
    requires IsUpper(s)
    ensures Upper(s) == s
  {
  }

  lemma UpperIdempotent(s: string)
    ensures IsUpper(Upper(s))
    ensures Upper(Upper(s)) == Upper(s)
  {
    UpperOfUpper(Upper(s));
  }

  /** Every display name is already upper case. */
  lemma DisplayNameIsUpper(t: TradeState)
    ensures IsUpper(DisplayName(t))
    ensures Upper(DisplayName(t)) == DisplayName(t)
  {
    UpperOfUpper(DisplayName(t));
  }

  /** Reading back a display name gives the same state. */
  lemma FromDisplayName(t: TradeState)
    ensures FromString(Some(DisplayName(t))) == t
  {
    DisplayNameIsUpper(t);
  }

  /** Different states have different display names. */
  lemma DisplayNameInjective(a: TradeState, b: TradeState)
    ensures DisplayName(a) == DisplayName(b) <==> a == b
  {
    FromDisplayName(a);
    FromDisplayName(b);
  }

  /** Case does not matter: a value reads as its upper-cased form. */
  lemma FromStringIgnoresCase(s: string)
    ensures FromString(Some(s)) == FromString(Some(Upper(s)))
  {
    UpperIdempotent(s);
  }

  /** A state other than `Unknown` is read exactly from its display name or,
      for `Wait`, from the short name "WAIT", in any case. */
  lemma FromStringRecognises(s: string, t: TradeState)
    requires t != Unknown
    ensures FromString(Some(s)) == t <==>
      Upper(s) == DisplayName(t) || (t == Wait && Upper(s) == "WAIT")
  {
  }

  /** Both spellings of the waiting state, in any case, read as `Wait`. */
  lemma WaitAliases()
    ensures FromString(Some("WAIT")) == Wait
    ensures FromString(Some("wait")) == Wait
    ensures FromString(Some("Setup Forming — Wait")) == Wait
    ensures FromString(Some("SETUP FORMING — WAIT")) == Wait
  {
    assert Upper("wait") == "WAIT";
    assert Upper("WAIT") == "WAIT";
    assert Upper("Setup Forming — Wait") == "SETUP FORMING — WAIT";
    DisplayNameIsUpper(Wait);
  }

  /** A missing value, and the backend's own spellings `NO_TRADE` and
      `SETUP_FORMING`, read as `Unknown`; so does the name "UNKNOWN". */
  lemma UnknownValues()
    ensures FromString(None) == Unknown
    ensures FromString(Some("NO_TRADE")) == Unknown
    ensures FromString(Some("SETUP_FORMING")) == Unknown
    ensures FromString(Some("UNKNOWN")) == Unknown
    ensures FromString(Some("")) == Unknown
  {
    assert Upper("NO_TRADE") == "NO_TRADE";
    assert Upper("SETUP_FORMING") == "SETUP_FORMING";
    assert Upper("UNKNOWN") == "UNKNOWN";
    assert Upper("") == "";
  }
}
