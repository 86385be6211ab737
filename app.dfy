/** The request validation of the web front end: the `q`/`mode`/`page` checks of
    `_parse_params`, with Python's `str.strip` and `int` on the way, and the signature gate
    of the image proxy. The detail of each HTTP error is its untranslated message. */
module App {
  import opened Basics
  import opened Query

  /** The query string of a request: the value of each parameter. */
  type QueryParams = map<string, string>

  datatype HttpException = HttpException(status: int, detail: string)

  const NoSearchTerm := "No search term was received"
  const EmptySearchTerm := "The search term is empty"
  const InvalidMode := "Invalid search mode"
  const InvalidPage := "Invalid page number"

  /** The characters `str.isspace` accepts, which `strip()` removes. */
  predicate IsSpace(c: char)
  {
    if c <= ' ' then
      c == ' ' || ('\t' <= c <= '\r') || ('\U{1C}' <= c <= '\U{1F}')
    else if c < '\U{85}' then false
    else
      || c == '\U{85}' || c == '\U{A0}' || c == '\U{1680}' || ('\U{2000}' <= c <= '\U{200A}')
      || c == '\U{2028}' || c == '\U{2029}' || c == '\U{202F}' || c == '\U{205F}' || c == '\U{3000}'
  }

  /** The characters `int()` skips around a number: the `isspace` characters except the
      separators U+001C to U+001F, which CPython maps to spaces only above U+007F. */
  predicate IntSpace(c: char)
  {
    IsSpace(c) && !('\U{1C}' <= c <= '\U{1F}')
  }

  /** The index of the first character of `s` at or after `i` that is not `space`, or `|s|`. */
  function SkipSpace(space: char -> bool, s: string, i: nat): (r: nat)
    requires i <= |s|
    ensures i <= r <= |s| && (r == |s| || !space(s[r]))
    ensures forall k :: i <= k < r ==> space(s[k])
    decreases |s| - i
  {
    if i < |s| && space(s[i]) then SkipSpace(space, s, i + 1) else i
  }

  /** The end of `s[lo..j]` once its trailing `space` characters are removed. */
  function TrimEnd(space: char -> bool, s: string, lo: nat, j: nat): (r: nat)
    requires lo <= j <= |s|
    ensures lo <= r <= j && (r == lo || !space(s[r - 1]))
    ensures forall k :: r <= k < j ==> space(s[k])
  {
    if lo < j && space(s[j - 1]) then TrimEnd(space, s, lo, j - 1) else j
  }

  /** `s` without its leading and trailing `space` characters: the part of `s` between
      them, and the empty string exactly when every character of `s` is one. */
  function StripBy(space: char -> bool, s: string): (r: string)
    ensures exists i, j :: 0 <= i <= j <= |s| && r == s[i..j] &&
                           (forall k :: 0 <= k < i ==> space(s[k])) &&
                           (forall k :: j <= k < |s| ==> space(s[k]))
    ensures r == [] || (!space(r[0]) && !space(r[|r| - 1]))
    ensures r == [] <==> forall k :: 0 <= k < |s| ==> space(s[k])
  {
    var i := SkipSpace(space, s, 0);
    s[i..TrimEnd(space, s, i, |s|)]
  }

  /** `s.strip()`. */
  function Strip(s: string): string
  {
    StripBy(IsSpace, s)
  }

  predicate IsDigit(c: char)
  {
    '0' <= c <= '9'
  }

  /** The digits of an integer literal as `int()` accepts them: ASCII digits, with single
      underscores allowed between two digits. */
  predicate WellFormedDigits(s: string)
  {
    && |s| > 0
    && forall i :: 0 <= i < |s| ==> IsDigit(s[i]) || SeparatorAt(s, i)
  }

  /** `s[i]` is an underscore with a digit on each side. */
  predicate SeparatorAt(s: string, i: int)
  {
    0 < i < |s| - 1 && s[i] == '_' && IsDigit(s[i - 1]) && IsDigit(s[i + 1])
  }

  /** The decimal value of the digits of `s`, skipping underscores. */
  function DigitsValue(s: string): nat
  {
    if s == [] then 0
    else if s[|s| - 1] == '_' then DigitsValue(s[..|s| - 1])
    else 10 * DigitsValue(s[..|s| - 1]) + (if IsDigit(s[|s| - 1]) then (s[|s| - 1] - '0') as nat else 0)
  }

  /** CPython's default `sys.int_info.default_max_str_digits`: `int()` refuses a decimal
      string with more digits than this. */
  const MaxStrDigits := 4300

  /** How many digits `s` has, underscores not counted. */
  function DigitCount(s: string): (r: nat)
    ensures r <= |s|
  {
    if s == [] then 0
    else DigitCount(s[..|s| - 1]) + (if s[|s| - 1] == '_' then 0 else 1)
  }

  /** `t` without its sign, if it has one. */
  function Unsigned(t: string): string
  {
    if |t| > 0 && (t[0] == '+' || t[0] == '-') then t[1..] else t
  }

  /** `int(s)` on a string: surrounding whitespace, an optional sign, then at most
      `MaxStrDigits` digits; None where Python raises ValueError. */
  function ParseInt(s: string): (r: Option<int>)
    // What is parsed is, between the whitespace, an optional sign and then digits with
    // single underscores between them; a leading '-' gives a value of at most zero,
    // anything else one of at least zero.
    ensures r.Some? ==> var t := StripBy(IntSpace, s);
              && |t| > 0 && (t[0] == '+' || t[0] == '-' || IsDigit(t[0])) && IsDigit(t[|t| - 1])
              && WellFormedDigits(Unsigned(t)) && DigitCount(Unsigned(t)) <= MaxStrDigits
              && (t[0] == '-' ==> r.value <= 0) && (t[0] != '-' ==> r.value >= 0)
    // Conversely, every such string parses, to the decimal value of its digits.
    ensures var t := StripBy(IntSpace, s);
            WellFormedDigits(Unsigned(t)) && DigitCount(Unsigned(t)) <= MaxStrDigits ==>
              r == Some(if t[0] == '-' then -(DigitsValue(Unsigned(t)) as int)
                        else DigitsValue(Unsigned(t)))
  {
    var t := StripBy(IntSpace, s);
    var u := Unsigned(t);
    if WellFormedDigits(u) && DigitCount(u) <= MaxStrDigits then
      Some(if t[0] == '-' then -(DigitsValue(u) as int) else DigitsValue(u))
    else None
  }

  function DigitChar(d: nat): (c: char)
    requires d < 10
    ensures IsDigit(c) && (c - '0') as nat == d
  {
    ('0' as int + d) as char
  }

  /** `str(n)` for a natural number. */
  function ShowNat(n: nat): (r: string)
    ensures |r| > 0 && forall i :: 0 <= i < |r| ==> IsDigit(r[i])
  {
    if n < 10 then [DigitChar(n)] else ShowNat(n / 10) + [DigitChar(n % 10)]
  }

  /** `str(n)` for any integer. */
  function Show(n: int): string
  {
    if n < 0 then "-" + ShowNat(-n) else ShowNat(n)
  }

  lemma {:induction false} DigitsValueShowNat(n: nat)
    ensures DigitsValue(ShowNat(n)) == n
    decreases n
  {
    if n >= 10 {
      var s := ShowNat(n);
      assert s[..|s| - 1] == ShowNat(n / 10);
      DigitsValueShowNat(n / 10);
    }
  }

  /** A string that neither starts nor ends with a `space` character is left as it is. */
  lemma {:induction false} StripNothing(space: char -> bool, s: string)
    requires s == [] || (!space(s[0]) && !space(s[|s| - 1]))
    ensures StripBy(space, s) == s
  {
    if s != [] {
      assert SkipSpace(space, s, 0) == 0;
      assert TrimEnd(space, s, 0, |s|) == |s|;
    }
    assert s[0..|s|] == s;
  }

  /** In a string of digits only, every character counts. */
  lemma {:induction false} DigitCountAllDigits(s: string)
    requires forall i :: 0 <= i < |s| ==> IsDigit(s[i])
    ensures DigitCount(s) == |s|
    decreases |s|
  {
    if s != [] {
      DigitCountAllDigits(s[..|s| - 1]);
    }
  }

  /** `int()` does not skip the separators U+001C to U+001F that `strip()` removes: a
      string starting with one is refused, so such a page is answered with 400. */
  lemma {:induction false} LeadingSeparatorRefused(s: string)
    requires |s| > 0 && '\U{1C}' <= s[0] <= '\U{1F}'
    ensures ParseInt(s) == None
  {
    var t := StripBy(IntSpace, s);
    assert SkipSpace(IntSpace, s, 0) == 0;
    assert TrimEnd(IntSpace, s, 0, |s|) > 0;
    assert t[0] == s[0];
    assert !(IsDigit(t[0]) || SeparatorAt(t, 0));
  }

  /** `int()` refuses more than `MaxStrDigits` digits. */
  lemma {:induction false} TooManyDigits(s: string)
    requires |s| > MaxStrDigits && forall i :: 0 <= i < |s| ==> IsDigit(s[i])
    ensures ParseInt(s) == None
  {
    StripNothing(IntSpace, s);
    DigitCountAllDigits(s);
  }

  /** An optional sign followed by digits needs no stripping. */
  lemma {:induction false} SignedDigitsUnstripped(sign: string, digits: string)
    requires sign == "" || sign == "+" || sign == "-"
    requires 0 < |digits| && IsDigit(digits[0]) && IsDigit(digits[|digits| - 1])
    ensures StripBy(IntSpace, sign + digits) == sign + digits
  {
    var s := sign + digits;
    assert s[|s| - 1] == digits[|digits| - 1];
    assert s[0] == if sign == "" then digits[0] else sign[0];
    assert !IntSpace(s[0]) && !IntSpace(s[|s| - 1]);
    StripNothing(IntSpace, s);
  }

  /** Removing the sign leaves the digits. */
  lemma {:induction false} SignedDigitsUnsigned(sign: string, digits: string)
    requires sign == "" || sign == "+" || sign == "-"
    requires 0 < |digits| && IsDigit(digits[0])
    ensures Unsigned(sign + digits) == digits
  {
    var s := sign + digits;
    if sign == "" {
      assert s == digits;
    } else {
      assert s[0] == sign[0] && s[1..] == digits;
    }
  }

  /** Digits alone are well formed, and each of them counts. */
  lemma {:induction false} AllDigits(digits: string)
    requires 0 < |digits| && forall i :: 0 <= i < |digits| ==> IsDigit(digits[i])
    ensures WellFormedDigits(digits) && DigitCount(digits) == |digits|
  {
    DigitCountAllDigits(digits);
  }

  /** An optional sign and well-formed digits within the limit parse to their value. */
  lemma {:induction false} SignedDigits(sign: string, digits: string)
    requires sign == "" || sign == "+" || sign == "-"
    requires WellFormedDigits(digits) && DigitCount(digits) <= MaxStrDigits
    ensures ParseInt(sign + digits) ==
            Some(if sign == "-" then -(DigitsValue(digits) as int) else DigitsValue(digits))
  {
    assert IsDigit(digits[0]) by {
      assert IsDigit(digits[0]) || SeparatorAt(digits, 0);
    }
    assert IsDigit(digits[|digits| - 1]) by {
      assert IsDigit(digits[|digits| - 1]) || SeparatorAt(digits, |digits| - 1);
    }
    SignedDigitsUnstripped(sign, digits);
    SignedDigitsUnsigned(sign, digits);
    var t := StripBy(IntSpace, sign + digits);
    assert t[0] == '-' <==> sign == "-";
  }

  /** `int(str(n)) == n` for every integer `n` of at most `MaxStrDigits` digits. */
  lemma {:induction false} ParseIntShow(n: int)
    requires |ShowNat(if n < 0 then -n else n)| <= MaxStrDigits
    ensures ParseInt(Show(n)) == Some(n)
  {
    var m: nat := if n < 0 then -n else n;
    var sign := if n < 0 then "-" else "";
    assert Show(n) == sign + ShowNat(m);
    AllDigits(ShowNat(m));
    SignedDigits(sign, ShowNat(m));
    DigitsValueShowNat(m);
  }

  /** `z` zeros. */
  function Zeros(z: nat): (r: string)
    ensures |r| == z && forall i :: 0 <= i < z ==> r[i] == '0'
  {
    seq(z, _ => '0')
  }

  /** Leading zeros do not change the value of digits. */
  lemma {:induction false} LeadingZerosValue(z: nat, s: string)
    ensures DigitsValue(Zeros(z) + s) == DigitsValue(s)
    decreases |s|, z
  {
    if s == [] {
      if z > 0 {
        assert (Zeros(z) + s)[..z - 1] == Zeros(z - 1) + s;
        LeadingZerosValue(z - 1, s);
      } else {
        assert Zeros(z) + s == s;
      }
    } else {
      assert (Zeros(z) + s)[..z + |s| - 1] == Zeros(z) + s[..|s| - 1];
      LeadingZerosValue(z, s[..|s| - 1]);
    }
  }

  /** A `+` sign and leading zeros change nothing: `int("+00" + str(n)) == n`. */
  lemma {:induction false} PlusAndLeadingZeros(z: nat, n: nat)
    requires z + |ShowNat(n)| <= MaxStrDigits
    ensures ParseInt("+" + Zeros(z) + ShowNat(n)) == Some(n)
  {
    var digits := Zeros(z) + ShowNat(n);
    assert "+" + Zeros(z) + ShowNat(n) == "+" + digits;
    AllDigits(digits);
    SignedDigits("+", digits);
    LeadingZerosValue(z, ShowNat(n));
    DigitsValueShowNat(n);
  }

  /** An underscore must sit between two digits: `int("1_")` and `int("_1")` raise. */
  lemma {:induction false} MisplacedSeparator(s: string)
    requires |s| > 0 && (s[0] == '_' || s[|s| - 1] == '_')
    ensures !WellFormedDigits(s)
  {
    if s[0] == '_' {
      assert !(IsDigit(s[0]) || SeparatorAt(s, 0));
    } else {
      assert !(IsDigit(s[|s| - 1]) || SeparatorAt(s, |s| - 1));
    }
  }

  /** What `_parse_params` returns: the stripped query, the mode and the page. */
  datatype SearchParams = SearchParams(query: string, mode: SearchMode, page: int)

  datatype Checked = Accepted(params: SearchParams) | Rejected(exc: HttpException)

  /** `_parse_params`: `q`, then `mode`, then `page`; the first failing check decides the
      error, always a 400. */
  function ParseParams(modes: ModeValues, qp: QueryParams): (r: Checked)
    ensures r.Rejected? ==> r.exc.status == 400
    ensures r.Accepted? <==>
              && "q" in qp && Strip(qp["q"]) != ""
              && "mode" in qp && modes.Lookup(qp["mode"]).Some?
              && "page" in qp && ParseInt(qp["page"]).Some?
    ensures "q" !in qp ==> r == Rejected(HttpException(400, NoSearchTerm))
    ensures "q" in qp && Strip(qp["q"]) == "" ==> r == Rejected(HttpException(400, EmptySearchTerm))
    ensures "q" in qp && Strip(qp["q"]) != "" &&
            ("mode" !in qp || modes.Lookup(qp["mode"]).None?) ==>
              r == Rejected(HttpException(400, InvalidMode))
    ensures "q" in qp && Strip(qp["q"]) != "" &&
            "mode" in qp && modes.Lookup(qp["mode"]).Some? &&
            ("page" !in qp || ParseInt(qp["page"]).None?) ==>
              r == Rejected(HttpException(400, InvalidPage))
    ensures r.Accepted? ==>
              && "q" in qp && r.params.query == Strip(qp["q"]) && r.params.query != ""
              && "mode" in qp && modes.Value(r.params.mode) == qp["mode"]
              && "page" in qp && ParseInt(qp["page"]) == Some(r.params.page)
  {
    if "q" !in qp then Rejected(HttpException(400, NoSearchTerm))
    else
      var query := Strip(qp["q"]);
      if query == "" then Rejected(HttpException(400, EmptySearchTerm))
      else if "mode" !in qp || modes.Lookup(qp["mode"]).None? then
        Rejected(HttpException(400, InvalidMode))
      else if "page" !in qp || ParseInt(qp["page"]).None? then
        Rejected(HttpException(400, InvalidPage))
      else
        Accepted(SearchParams(query, modes.Lookup(qp["mode"]).value, ParseInt(qp["page"]).value))
  }

  /** Every integer of at most `MaxStrDigits` digits is an acceptable page, zero and
      negative ones included: with a usable query and mode, `page=str(n)` is accepted as
      page `n`. */
  lemma {:induction false} AnyIntegerPage(modes: ModeValues, qp: QueryParams, m: SearchMode, n: int)
    requires modes.Valid()
    requires |ShowNat(if n < 0 then -n else n)| <= MaxStrDigits
    requires "q" in qp && Strip(qp["q"]) != ""
    ensures ParseParams(modes, qp["mode" := modes.Value(m)]["page" := Show(n)]) ==
            Accepted(SearchParams(Strip(qp["q"]), m, n))
  {
    var given := qp["mode" := modes.Value(m)]["page" := Show(n)];
    assert given["q"] == qp["q"] && given["mode"] == modes.Value(m) && given["page"] == Show(n);
    ParseIntShow(n);
    LookupValue(modes, m);
  }

  /** The decision of the image proxy before any upstream request. */
  datatype ImageAccess = Proxy(url: string) | Refuse(exc: HttpException)

  /** The gate at the top of `img`: no `url` is 404, then a missing or wrong `sha` is 401.
      `sign` is the server's signing function `gen_sha`. */
  function AuthorizeImage(qp: QueryParams, sign: string -> string): (r: ImageAccess)
    ensures "url" !in qp ==> r == Refuse(HttpException(404, "Not Found"))
    ensures "url" in qp && ("sha" !in qp || qp["sha"] != sign(qp["url"])) ==>
              r == Refuse(HttpException(401, "Unauthorized"))
    ensures r.Proxy? <==> "url" in qp && "sha" in qp && qp["sha"] == sign(qp["url"])
    ensures r.Proxy? ==> r.url == qp["url"]
  {
    if "url" !in qp then Refuse(HttpException(404, "Not Found"))
    else if "sha" !in qp || sign(qp["url"]) != qp["sha"] then Refuse(HttpException(401, "Unauthorized"))
    else Proxy(qp["url"])
  }

  /** A link signed by the server is proxied, whatever other parameters it carries; any
      other signature for the same url is refused with 401. */
  lemma SignedLinkIsProxied(qp: QueryParams, sign: string -> string, url: string, sha: string)
    ensures AuthorizeImage(qp["url" := url]["sha" := sha], sign) ==
            if sha == sign(url) then Proxy(url) else Refuse(HttpException(401, "Unauthorized"))
  {
  }
}
