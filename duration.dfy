/** `parse_duration_to_seconds`: the song length text, in one of the forms
    "X分Y秒", "X分", "Y秒" or a bare number, turned into seconds; and the
    lyric node's own rendering of its minute and second inputs. */
module Duration {
  import opened Wrappers
  import opened Text

  /** The `ValueError` the parser raises, carrying the offending text. */
  datatype DurationError = InvalidDuration(text: string)

  const Minute: char := '分'
  const Second: char := '秒'

  /** Length of the run of ASCII digits at the start of `s`. */
  function DigitRun(s: string): (n: nat)
    ensures n <= |s|
    ensures forall t :: 0 <= t < n ==> IsDigit(s[t])
    ensures n < |s| ==> !IsDigit(s[n])
  {
    if s != [] && IsDigit(s[0]) then 1 + DigitRun(s[1..]) else 0
  }

  /** The regular expression `(\d+)<marker>` tried at position `i`: the
      greedy run of digits from `i` must be followed by `marker`. Giving
      back fewer digits cannot help, since `marker` is not a digit. */
  function MatchAt(s: string, i: nat, marker: char): (r: Option<string>)
    requires i <= |s|
    ensures r.Some? ==> r.value != [] && AllDigits(r.value)
    ensures r.Some? ==> i + |r.value| < |s| && r.value == s[i..i + |r.value|]
    ensures r.Some? ==> s[i + |r.value|] == marker
  {
    var j := i + DigitRun(s[i..]);
    if j > i && j < |s| && s[j] == marker then Some(s[i..j]) else None
  }

  /** `re.search(r"(\d+)<marker>", s[i..])`, group 1: the leftmost match. */
  function SearchFrom(s: string, i: nat, marker: char): (r: Option<string>)
    requires i <= |s|
    ensures r.Some? ==> r.value != [] && AllDigits(r.value)
    decreases |s| - i
  {
    if i == |s| then None
    else
      match MatchAt(s, i, marker)
      case Some(d) => Some(d)
      case None => SearchFrom(s, i + 1, marker)
  }

  function Search(s: string, marker: char): Option<string>
  {
    SearchFrom(s, 0, marker)
  }

  /** `parse_duration_to_seconds`. */
  function ParseDuration(s: string): (r: Result<int, DurationError>)
    ensures r.Err? ==> r.error == InvalidDuration(s)
  {
    if Minute in s && Second in s then
      var m, sec := Search(s, Minute), Search(s, Second);
      if m.Some? && sec.Some? then Ok(DigitsValue(m.value) * 60 + DigitsValue(sec.value))
      else Err(InvalidDuration(s))
    else
      var v := if Minute in s then ParseInt(Delete(s, Minute))
               else if Second in s then ParseInt(Delete(s, Second))
               else ParseInt(s);
      if v.None? then Err(InvalidDuration(s))
      else if Minute in s then Ok(v.value * 60)
      else Ok(v.value)
  }

  /** The lyric node's `f"{time_m}分{time_s}秒"`. */
  function SongLength(minutes: int, seconds: int): string
  {
    IntToString(minutes) + [Minute] + IntToString(seconds) + [Second]
  }

  function Abs(n: int): nat
  {
    if n < 0 then -n else n
  }

  // ----- the search -----

  /** A digit run from `i` that stops at `j` has length `j - i`. */
  lemma {:induction false} RunLength(s: string, i: nat, j: nat)
    requires i <= j <= |s|
    requires forall t :: i <= t < j ==> IsDigit(s[t])
    requires j < |s| ==> !IsDigit(s[j])
    ensures DigitRun(s[i..]) == j - i
    decreases j - i
  {
    if i < j {
      assert s[i..][1..] == s[i + 1..];
      RunLength(s, i + 1, j);
    }
  }

  /** Positions where the pattern does not match do not change the search. */
  lemma {:induction false} SkipNoMatch(s: string, a: nat, b: nat, marker: char)
    requires a <= b <= |s|
    requires forall i :: a <= i < b ==> MatchAt(s, i, marker) == None
    ensures SearchFrom(s, a, marker) == SearchFrom(s, b, marker)
    decreases b - a
  {
    if a < b {
      SkipNoMatch(s, a + 1, b, marker);
    }
  }

  /** The search succeeds exactly when some `marker` has a digit right
      before it. */
  lemma {:induction false} SearchFinds(s: string, i: nat, marker: char)
    requires i <= |s|
    requires !IsDigit(marker)
    ensures SearchFrom(s, i, marker).Some?
      <==> exists j :: i < j < |s| && s[j] == marker && IsDigit(s[j - 1])
    decreases |s| - i
  {
    if i < |s| {
      var m := MatchAt(s, i, marker);
      if m.Some? {
        var j := i + |m.value|;
        assert s[j - 1] == m.value[|m.value| - 1];
      } else {
        SearchFinds(s, i + 1, marker);
      }
    }
  }

  /** Searching from `q` for `marker` in `… + pre + digits + [marker] + …`,
      where `pre` starts at `q` and is empty or a sign, finds `digits`. */
  lemma FindsAfterSign(s: string, q: nat, o: nat, digits: string, marker: char)
    requires o <= 1 && q + o + |digits| < |s|
    requires digits != [] && AllDigits(digits)
    requires s[q + o..q + o + |digits|] == digits && s[q + o + |digits|] == marker
    requires o == 1 ==> !IsDigit(s[q])
    requires !IsDigit(marker)
    ensures SearchFrom(s, q, marker) == Some(digits)
  {
    MatchesDigits(s, q + o, digits, marker);
    assert SearchFrom(s, q + o, marker) == Some(digits);
    if o == 1 {
      RunLength(s, q, q);
      assert MatchAt(s, q, marker) == None;
      assert SearchFrom(s, q, marker) == SearchFrom(s, q + 1, marker);
    }
  }

  /** The pattern matches at `j` when `digits` and then `marker` follow. */
  lemma MatchesDigits(s: string, j: nat, digits: string, marker: char)
    requires j + |digits| < |s|
    requires digits != [] && AllDigits(digits)
    requires s[j..j + |digits|] == digits && s[j + |digits|] == marker
    requires !IsDigit(marker)
    ensures MatchAt(s, j, marker) == Some(digits)
  {
    forall t | j <= t < j + |digits| ensures IsDigit(s[t]) {
      assert s[t] == digits[t - j];
    }
    RunLength(s, j, j + |digits|);
  }

  /** `str(n)` with its digits located: `o` is 1 for a sign, else 0. */
  lemma IntToStringShape(n: int)
    ensures var t := IntToString(n); var o := if n < 0 then 1 else 0;
      |t| == o + |NatToString(Abs(n))| && t[o..] == NatToString(Abs(n))
      && (o == 1 ==> t[0] == '-')
      && Minute !in t && Second !in t
  {
    var d := NatToString(Abs(n));
    assert Minute !in d && Second !in d by {
      forall t | 0 <= t < |d| ensures d[t] != Minute && d[t] != Second {
        assert IsDigit(d[t]);
      }
    }
  }

  // ----- properties of the parser -----

  /** In the node's rendering the pattern `(\d+)分` finds the minutes. */
  lemma SongLengthMinutes(minutes: int, seconds: int)
    ensures Search(SongLength(minutes, seconds), Minute) == Some(NatToString(Abs(minutes)))
  {
    var a, b := IntToString(minutes), IntToString(seconds);
    var s := SongLength(minutes, seconds);
    var da := NatToString(Abs(minutes));
    var oa := if minutes < 0 then 1 else 0;
    IntToStringShape(minutes);
    assert s == a + [Minute] + b + [Second];
    assert s[..|a|] == a;
    assert s[oa..oa + |da|] == da;
    FindsAfterSign(s, 0, oa, da, Minute);
  }

  /** In the node's rendering the pattern `(\d+)秒` finds the seconds: no
      position before the seconds' digits matches. */
  lemma SongLengthSeconds(minutes: int, seconds: int)
    ensures Search(SongLength(minutes, seconds), Second) == Some(NatToString(Abs(seconds)))
  {
    var a, b := IntToString(minutes), IntToString(seconds);
    var s := SongLength(minutes, seconds);
    var db := NatToString(Abs(seconds));
    var oa, ob := if minutes < 0 then 1 else 0, if seconds < 0 then 1 else 0;
    IntToStringShape(minutes);
    IntToStringShape(seconds);
    assert s == a + [Minute] + b + [Second];
    assert s[..|a|] == a;
    var p := |a| + 1;
    assert s[p..p + |b|] == b;
    assert s[p + ob..p + ob + |db|] == db;
    forall t | 0 <= t < p ensures s[t] != Second {
      if t < |a| {
        assert s[t] == a[t];
      }
    }
    NoMatchBefore(s, p, Second);
    SkipNoMatch(s, 0, p, Second);
    FindsAfterSign(s, p, ob, db, Second);
  }

  /** No match starts before a non-digit when `marker` does not occur
      before it. */
  lemma NoMatchBefore(s: string, p: nat, marker: char)
    requires 0 < p <= |s| && !IsDigit(s[p - 1])
    requires forall t :: 0 <= t < p ==> s[t] != marker
    ensures forall i :: 0 <= i < p ==> MatchAt(s, i, marker) == None
  {
    forall i | 0 <= i < p ensures MatchAt(s, i, marker) == None {
      var k := p - 1 - i;
      assert s[i..][k] == s[p - 1];
      assert DigitRun(s[i..]) <= k;
    }
  }

  /** The node's own rendering parses back: `"m分s秒"` gives `|m|*60 + |s|`.
      The sign of a negative input is skipped by the pattern `(\d+)`. */
  lemma ParseSongLength(minutes: int, seconds: int)
    ensures ParseDuration(SongLength(minutes, seconds)) == Ok(Abs(minutes) * 60 + Abs(seconds))
  {
    var s := SongLength(minutes, seconds);
    assert s[|IntToString(minutes)|] == Minute;
    assert s[|s| - 1] == Second;
    SongLengthMinutes(minutes, seconds);
    SongLengthSeconds(minutes, seconds);
    NatToStringValue(Abs(minutes));
    NatToStringValue(Abs(seconds));
  }

  /** For non-negative inputs the round trip is exact. */
  lemma ParseSongLengthExact(minutes: nat, seconds: nat)
    ensures ParseDuration(SongLength(minutes, seconds)) == Ok(minutes * 60 + seconds)
  {
    ParseSongLength(minutes, seconds);
  }

  /** `"N分"` is `60 * N` seconds. */
  lemma ParseMinutesOnly(n: int)
    ensures ParseDuration(IntToString(n) + [Minute]) == Ok(60 * n)
  {
    var t := IntToString(n) + [Minute];
    IntToStringShape(n);
    assert Minute in t && Second !in t;
    DeleteTrailing(IntToString(n), Minute);
    ParseIntOfIntToString(n);
  }

  /** `"N秒"` is `N` seconds. */
  lemma ParseSecondsOnly(n: int)
    ensures ParseDuration(IntToString(n) + [Second]) == Ok(n)
  {
    var t := IntToString(n) + [Second];
    IntToStringShape(n);
    assert Minute !in t && Second in t;
    DeleteTrailing(IntToString(n), Second);
    ParseIntOfIntToString(n);
  }

  /** A bare number is that many seconds. */
  lemma ParseBare(n: int)
    ensures ParseDuration(IntToString(n)) == Ok(n)
  {
    IntToStringShape(n);
    ParseIntOfIntToString(n);
  }

  /** With both markers present, the text is rejected when no `分` has a
      digit right before it. */
  lemma RejectsMinuteWithoutDigits(s: string)
    requires Minute in s && Second in s
    requires forall j :: 0 < j < |s| && s[j] == Minute ==> !IsDigit(s[j - 1])
    ensures ParseDuration(s) == Err(InvalidDuration(s))
  {
    SearchFinds(s, 0, Minute);
  }

  /** Worked examples of the accepted formats, one lemma each. */
  lemma ExampleMinutesSeconds()
    ensures ParseDuration("1分30秒") == Ok(90)
  {
    assert SongLength(1, 30) == "1分30秒";
    ParseSongLengthExact(1, 30);
  }

  lemma ExampleMinutes()
    ensures ParseDuration("2分") == Ok(120)
  {
    assert IntToString(2) + [Minute] == "2分";
    ParseMinutesOnly(2);
  }

  lemma ExampleSeconds()
    ensures ParseDuration("45秒") == Ok(45)
  {
    assert IntToString(45) + [Second] == "45秒";
    ParseSecondsOnly(45);
  }

  lemma ExampleBare()
    ensures ParseDuration("100") == Ok(100)
  {
    assert IntToString(100) == "100";
    ParseBare(100);
  }

  lemma ExampleRejected()
    ensures ParseDuration("abc").Err?
    ensures ParseDuration("分秒").Err?
  {
    var t := "abc";
    assert Minute !in t && Second !in t;
    assert IsStripped(t);
    StripOfStripped(t);
    assert !IsDigit(t[0]);
    RejectsMinuteWithoutDigits("分秒");
  }
}
