/** The high-score store (src/storage.js): the all-time highest score is read from the
    browser's `localStorage` when the module loads, parsed defensively, and written back
    only when a run beats it. `localStorage` is modelled as a map from keys to strings
    that the store owns. */
module Storage {

  const STORAGE_KEY: string := "geo-rush.highestScore"

  datatype Option<T> = None | Some(value: T)

  /** `localStorage.getItem(key)`: the stored string, or `null` when there is none. */
  function GetItem(store: map<string, string>, key: string): Option<string> {
    if key in store then Some(store[key]) else None
  }

  // ---------------------------------------------------------------------------------
  // `Number.parseInt` with no radix

  /** The white space and line terminators `parseInt` skips at the start of its input. */
  predicate IsWhiteSpace(c: char) {
    || c == '\t' || c == '\n' || c == '\U{000B}' || c == '\U{000C}' || c == '\r' || c == ' '
    || c == '\U{00A0}' || c == '\U{1680}' || ('\U{2000}' <= c <= '\U{200A}')
    || c == '\U{2028}' || c == '\U{2029}' || c == '\U{202F}' || c == '\U{205F}'
    || c == '\U{3000}' || c == '\U{FEFF}'
  }

  /** The input without its leading white space. */
  function TrimStart(s: string): (r: string)
    ensures |r| <= |s| && r == s[|s| - |r|..]
    ensures r == [] || !IsWhiteSpace(r[0])
    ensures forall i :: 0 <= i < |s| - |r| ==> IsWhiteSpace(s[i])
  {
    if s != [] && IsWhiteSpace(s[0]) then TrimStart(s[1..]) else s
  }

  /** The value of `c` as a digit in base `radix` (10 or 16), if it is one. */
  function DigitValue(c: char, radix: nat): Option<nat> {
    if '0' <= c <= '9' then Some(c as int - '0' as int)
    else if radix == 16 && 'a' <= c <= 'f' then Some(c as int - 'a' as int + 10)
    else if radix == 16 && 'A' <= c <= 'F' then Some(c as int - 'A' as int + 10)
    else None
  }

  /** The length of the longest prefix of `s` made of digits in base `radix`. */
  function DigitCount(s: string, radix: nat): (n: nat)
    ensures n <= |s|
    ensures forall i :: 0 <= i < n ==> DigitValue(s[i], radix).Some?
    ensures n < |s| ==> DigitValue(s[n], radix).None?
  {
    if s != [] && DigitValue(s[0], radix).Some? then 1 + DigitCount(s[1..], radix) else 0
  }

  /** The number the digits `ds` spell in base `radix`, most significant first. */
  function DigitsValue(ds: string, radix: nat): nat
    requires forall i :: 0 <= i < |ds| ==> DigitValue(ds[i], radix).Some?
    decreases |ds|
  {
    if ds == [] then 0
    else DigitsValue(ds[..|ds| - 1], radix) * radix + DigitValue(ds[|ds| - 1], radix).value
  }

  /** The longest run of digits in base `radix` at the start of `v`, read as a number;
      `None` when there is none. */
  function ParseDigits(v: string, radix: nat): Option<nat> {
    var n := DigitCount(v, radix);
    if n == 0 then None else Some(DigitsValue(v[..n], radix))
  }

  /** The digits after the sign: a `0x` or `0X` prefix switches to base 16. */
  function ParseUnsigned(u: string): Option<nat> {
    if |u| >= 2 && u[0] == '0' && (u[1] == 'x' || u[1] == 'X') then ParseDigits(u[2..], 16)
    else ParseDigits(u, 10)
  }

  /** `Number.parseInt(s)`: leading white space is skipped, then the rest is read by
      `ParseTrimmed`. */
  function ParseInt(s: string): Option<int> {
    ParseTrimmed(TrimStart(s))
  }

  /** One optional sign, then the digits as `ParseUnsigned` reads them; the rest is
      ignored. Without a digit the result is `NaN`, here `None`. */
  function ParseTrimmed(t: string): Option<int> {
    var negative := t != [] && t[0] == '-';
    var u := if t != [] && (t[0] == '-' || t[0] == '+') then t[1..] else t;
    match ParseUnsigned(u)
    case None => None
    case Some(n) => if negative then Some(-(n as int)) else Some(n as int)
  }

  // ---------------------------------------------------------------------------------
  // `Number.prototype.toFixed()` on an integer

  function DigitChar(d: nat): char
    requires d < 10
  {
    ['0', '1', '2', '3', '4', '5', '6', '7', '8', '9'][d]
  }

  /** The decimal digits of `n`, without leading zeros. */
  function Digits(n: nat): string
    decreases n
  {
    if n < 10 then [DigitChar(n)] else Digits(n / 10) + [DigitChar(n % 10)]
  }

  /** `n.toFixed()` for an integer `n`: its decimal digits, after a `-` when it is
      negative. */
  function Decimal(n: int): string {
    if n < 0 then "-" + Digits(-n) else Digits(n)
  }

  /** The digits of `n` are decimal digits that spell `n`, and start with `0` only when
      `n` is 0. */
  lemma DigitsSpell(n: nat)
    ensures Digits(n) != []
    ensures forall i :: 0 <= i < |Digits(n)| ==> DigitValue(Digits(n)[i], 10).Some?
    ensures DigitsValue(Digits(n), 10) == n
    ensures Digits(n)[0] == '0' ==> Digits(n) == "0"
  {
    DigitsAreDigits(n);
    DigitsValueOf(n);
    DigitsLead(n);
  }

  lemma {:induction false} DigitsAreDigits(n: nat)
    ensures Digits(n) != []
    ensures forall i :: 0 <= i < |Digits(n)| ==> DigitValue(Digits(n)[i], 10).Some?
    decreases n
  {
    if n >= 10 {
      DigitsAreDigits(n / 10);
      var ds, d := Digits(n / 10), DigitChar(n % 10);
      assert Digits(n) == ds + [d];
      assert DigitValue(d, 10).Some?;
    }
  }

  lemma {:induction false} DigitsValueOf(n: nat)
    ensures forall i :: 0 <= i < |Digits(n)| ==> DigitValue(Digits(n)[i], 10).Some?
    ensures DigitsValue(Digits(n), 10) == n
    decreases n
  {
    DigitsAreDigits(n);
    if n >= 10 {
      DigitsValueOf(n / 10);
      var ds, d := Digits(n / 10), DigitChar(n % 10);
      assert Digits(n) == ds + [d];
      assert (ds + [d])[..|ds|] == ds;
      assert DigitValue(d, 10).value == n % 10;
    }
  }

  lemma {:induction false} DigitsLead(n: nat)
    ensures Digits(n) != []
    ensures Digits(n)[0] == '0' ==> Digits(n) == "0"
    decreases n
  {
    if n >= 10 {
      DigitsLead(n / 10);
      assert Digits(n)[0] == Digits(n / 10)[0];
    }
  }

  /** All of a run of digits is read. */
  lemma {:induction false} DigitCountAll(s: string, radix: nat)
    requires forall i :: 0 <= i < |s| ==> DigitValue(s[i], radix).Some?
    ensures DigitCount(s, radix) == |s|
    decreases |s|
  {
    if s != [] {
      DigitCountAll(s[1..], radix);
    }
  }

  /** `parseInt` reads back what `toFixed` writes, also when something follows that
      starts with neither a digit nor an `x` (after `0`, an `x` would start a
      hexadecimal number). */
  lemma ParseDecimal(n: int, rest: string)
    requires rest == [] || (DigitValue(rest[0], 10).None? && rest[0] != 'x' && rest[0] != 'X')
    ensures ParseInt(Decimal(n) + rest) == Some(n)
  {
    var m := if n < 0 then -n else n;
    DigitsSpell(m);
    ParseDigitsBack(m, rest);
    ParseSigned(Digits(m), rest, m);
    if n < 0 {
      assert Decimal(n) + rest == "-" + Digits(m) + rest;
    }
  }

  /** Digits read as `m` are read as `m` after no sign and as `-m` after `-`. */
  lemma ParseSigned(ds: string, rest: string, m: nat)
    requires ds != [] && DigitValue(ds[0], 10).Some? && ParseUnsigned(ds + rest) == Some(m)
    ensures ParseInt(ds + rest) == Some(m as int) && ParseInt("-" + ds + rest) == Some(-(m as int))
  {
    assert "-" + ds + rest == "-" + (ds + rest);
    ParseUnsignedStart(ds + rest, m);
    ParseNegativeStart(ds + rest, m);
  }

  lemma ParseUnsignedStart(s: string, m: nat)
    requires s != [] && DigitValue(s[0], 10).Some? && ParseUnsigned(s) == Some(m)
    ensures ParseInt(s) == Some(m as int)
  {
    assert !IsWhiteSpace(s[0]);
    assert TrimStart(s) == s;
  }

  lemma ParseNegativeStart(s: string, m: nat)
    requires ParseUnsigned(s) == Some(m)
    ensures ParseInt("-" + s) == Some(-(m as int))
  {
    var t := "-" + s;
    assert t[0] == '-' && t[1..] == s;
    assert TrimStart(t) == t;
  }

  /** The digits of `m`, followed by anything that starts with neither a digit nor an
      `x`, read back as `m`. */
  lemma ParseDigitsBack(m: nat, rest: string)
    requires rest == [] || (DigitValue(rest[0], 10).None? && rest[0] != 'x' && rest[0] != 'X')
    ensures ParseUnsigned(Digits(m) + rest) == Some(m)
  {
    var ds := Digits(m);
    DigitsSpell(m);
    var u := ds + rest;
    DigitCountPrefix(ds, rest, 10);
    assert u[..|ds|] == ds;
    if |u| >= 2 && u[0] == '0' {
      assert ds == "0";
      assert u[1] == rest[0];
    }
  }

  /** The digits of `ds` are all that is read from `ds + rest` when `rest` does not
      start with one. */
  lemma {:induction false} DigitCountPrefix(ds: string, rest: string, radix: nat)
    requires forall i :: 0 <= i < |ds| ==> DigitValue(ds[i], radix).Some?
    requires rest == [] || DigitValue(rest[0], radix).None?
    ensures DigitCount(ds + rest, radix) == |ds|
    decreases |ds|
  {
    if ds != [] {
      assert (ds + rest)[1..] == ds[1..] + rest;
      DigitCountPrefix(ds[1..], rest, radix);
    } else {
      assert ds + rest == rest;
    }
  }

  /** `parseInt` ignores white space in front of its input. */
  lemma SkipsWhiteSpace(ws: string, s: string)
    requires forall i :: 0 <= i < |ws| ==> IsWhiteSpace(ws[i])
    ensures ParseInt(ws + s) == ParseInt(s)
  {
    TrimStartPrefix(ws, s);
  }

  lemma {:induction false} TrimStartPrefix(ws: string, s: string)
    requires forall i :: 0 <= i < |ws| ==> IsWhiteSpace(ws[i])
    ensures TrimStart(ws + s) == TrimStart(s)
    decreases |ws|
  {
    if ws == [] {
      assert ws + s == s;
    } else {
      assert (ws + s)[1..] == ws[1..] + s;
      TrimStartPrefix(ws[1..], s);
    }
  }

  /** Text that starts, after white space, with neither a sign nor a digit is `NaN`. */
  lemma NotANumber(s: string)
    requires var t := TrimStart(s); t == [] || (t[0] != '-' && t[0] != '+' && DigitValue(t[0], 10).None?)
    ensures ParseInt(s) == None
  {
  }

  // ---------------------------------------------------------------------------------
  // The module's state

  /** The module's load: `highestScore` is the stored value parsed by `parseInt`, or 0
      when nothing (or the empty string) is stored or the stored text is `NaN`. */
  function Load(stored: Option<string>): int {
    match stored
    case None => 0
    case Some(s) =>
      if s == [] then 0
      else match ParseInt(s)
        case None => 0
        case Some(n) => n
  }

  /** Missing, empty or unreadable data loads as 0. */
  lemma LoadDefaults(s: string)
    ensures Load(None) == 0 && Load(Some("")) == 0
    ensures ParseInt(s) == None ==> Load(Some(s)) == 0
  {
  }

  /** What `toFixed` writes loads back as the number it wrote. */
  lemma LoadsWritten(n: int)
    ensures Load(Some(Decimal(n))) == n
  {
    ParseDecimal(n, []);
    assert Decimal(n) + [] == Decimal(n);
  }

  /** What one `updateHightestScore(score)` leaves as the highest score. */
  function Raised(highest: int, score: int): (r: int)
    ensures r >= highest && r >= score
    ensures r == highest || r == score
  {
    if score <= highest then highest else score
  }

  /** The highest score after the updates `scores`, in order. */
  function AfterUpdates(highest: int, scores: seq<int>): int
    decreases |scores|
  {
    if scores == [] then highest else Raised(AfterUpdates(highest, scores[..|scores| - 1]), scores[|scores| - 1])
  }

  /** Over any sequence of updates the highest score never decreases: it ends as the
      largest of the loaded value and the scores. */
  lemma {:induction false} UpdatesKeepMaximum(highest: int, scores: seq<int>)
    ensures AfterUpdates(highest, scores) >= highest
    ensures forall i :: 0 <= i < |scores| ==> AfterUpdates(highest, scores) >= scores[i]
    ensures AfterUpdates(highest, scores) == highest || AfterUpdates(highest, scores) in scores
    decreases |scores|
  {
    if scores != [] {
      var init := scores[..|scores| - 1];
      UpdatesKeepMaximum(highest, init);
      assert forall i :: 0 <= i < |init| ==> scores[i] == init[i];
      assert forall x :: x in init ==> x in scores;
    }
  }

  /** An earlier prefix of the updates never ends above a later one. */
  lemma {:induction false} UpdatesNeverLower(highest: int, scores: seq<int>, k: nat)
    requires k <= |scores|
    ensures AfterUpdates(highest, scores[..k]) <= AfterUpdates(highest, scores)
    decreases |scores| - k
  {
    if k < |scores| {
      UpdatesNeverLower(highest, scores, k + 1);
      assert scores[..k + 1][..k] == scores[..k];
    } else {
      assert scores[..k] == scores;
    }
  }

  /** The module's state: `highestScore`, and the `localStorage` it reads and writes. */
  class HighScore {
    var highest: int
    var store: map<string, string>

    /** The stored entry loads as `highest`. */
    predicate Synced()
      reads this
    {
      Load(GetItem(store, STORAGE_KEY)) == highest
    }

    /** The module's load, over the `localStorage` contents `store`. */
    constructor (store: map<string, string>)
      ensures this.store == store && highest == Load(GetItem(store, STORAGE_KEY))
      ensures Synced()
    {
      this.store := store;
      highest := Load(GetItem(store, STORAGE_KEY));
    }

    /** `updateHightestScore(score)`: a score that does not beat the highest changes
        nothing and writes nothing; one that does becomes the highest and is written
        under `STORAGE_KEY`, as `toFixed` prints it. `written` tells which. */
    method Update(score: int) returns (written: bool)
      modifies this
      ensures written <==> score > old(highest)
      ensures highest == Raised(old(highest), score)
      ensures !written ==> store == old(store)
      ensures written ==> store == old(store)[STORAGE_KEY := Decimal(score)]
      ensures written ==> Synced()
      ensures old(Synced()) ==> Synced()
    {
      if score <= highest {
        return false;
      }
      LoadsWritten(score);
      highest := score;
      store := store[STORAGE_KEY := Decimal(score)];
      written := true;
    }
  }
}
