/**
 The file name that a replacement upload is saved under
 (maubot/management/api/plugin_upload.py).  Versions are texts without dashes,
 as PEP 440 writes them, and the time stamp is a non-empty run of digits.
 */
module UploadNames {

  predicate IsDigit(c: char) {
    '0' <= c <= '9'
  }

  predicate AllDigits(s: string) {
    forall i | 0 <= i < |s| :: IsDigit(s[i])
  }

  predicate IsVersion(v: string) {
    v != "" && '-' !in v
  }

  /** `x in s` */
  predicate Contains(s: string, x: string) {
    x <= s || (s != "" && Contains(s[1..], x))
  }

  /** How many digits a text starts with. */
  function Digits(s: string): (n: nat)
    ensures n <= |s| && AllDigits(s[..n])
    ensures n < |s| ==> !IsDigit(s[n])
  {
    if s != "" && IsDigit(s[0]) then 1 + Digits(s[1..]) else 0
  }

  /** The length of a `-ts[0-9]+` at the front, if there is one. */
  function Stamp(s: string): (n: nat)
    ensures n <= |s|
  {
    if "-ts" <= s && Digits(s[3..]) > 0 then 3 + Digits(s[3..]) else 0
  }

  /** What is left after a match of the version and its stamp. */
  function Behind(f: string, x: string): (rest: string)
    requires x <= f
    ensures |rest| == |f| - |x| - Stamp(f[|x|..])
  {
    f[|x| + Stamp(f[|x|..])..]
  }

  /** `re.sub(escape(x) + "(-ts[0-9]+)?", y, f)` */
  function Sub(f: string, x: string, y: string): string
    requires x != ""
    decreases |f|
  {
    if x <= f then y + Sub(Behind(f, x), x, y)
    else if f == "" then ""
    else [f[0]] + Sub(f[1..], x, y)
  }

  /** `filename.rstrip(".mbp")`, which strips characters and not the suffix. */
  function RStrip(f: string): (r: string)
    ensures r <= f && (r == "" || r[|r| - 1] !in ".mbp")
    ensures forall i | |r| <= i < |f| :: f[i] in ".mbp"
  {
    if f != "" && f[|f| - 1] in ".mbp" then RStrip(f[..|f| - 1]) else f
  }

  /** `same`: the two versions are equal as versions, which they may be without being the same text. */
  function NewName(f: string, version: string, newVersion: string, same: bool, now: string): string
    requires version != ""
  {
    if Contains(f, version) then Sub(f, version, if same then newVersion + "-ts" + now else newVersion)
    else RStrip(f) + "-v" + newVersion + ".mbp"
  }

  // ---------------------------------------------------------------------
  // Counting matches, stamps and dashes
  // ---------------------------------------------------------------------

  function Matches(f: string, x: string): nat
    requires x != ""
    decreases |f|
  {
    if x <= f then 1 + Matches(Behind(f, x), x)
    else if f == "" then 0
    else Matches(f[1..], x)
  }

  function Stamped(f: string, x: string): nat
    requires x != ""
    decreases |f|
  {
    if x <= f then (if Stamp(f[|x|..]) > 0 then 1 else 0) + Stamped(Behind(f, x), x)
    else if f == "" then 0
    else Stamped(f[1..], x)
  }

  /** Every occurrence of the version carries this stamp. */
  predicate AllCarry(f: string, x: string, stamp: string)
    requires x != ""
    decreases |f|
  {
    if x <= f then f[|x|..|x| + Stamp(f[|x|..])] == stamp && AllCarry(Behind(f, x), x, stamp)
    else f == "" || AllCarry(f[1..], x, stamp)
  }

  function Dashes(s: string): nat {
    if s == "" then 0 else (if s[0] == '-' then 1 else 0) + Dashes(s[1..])
  }

  lemma {:induction false} DashesAppend(s: string, t: string)
    ensures Dashes(s + t) == Dashes(s) + Dashes(t)
    decreases |s|
  {
    if s == "" {
      assert s + t == t;
    } else {
      assert (s + t)[1..] == s[1..] + t;
      DashesAppend(s[1..], t);
    }
  }

  lemma {:induction false} NoDashes(s: string)
    requires '-' !in s
    ensures Dashes(s) == 0
  {
    if s != "" {
      NoDashes(s[1..]);
    }
  }

  lemma {:induction false} StampHasOneDash(s: string)
    requires Stamp(s) > 0
    ensures Dashes(s[..Stamp(s)]) == 1
  {
    var digits := s[3..][..Digits(s[3..])];
    assert s[..Stamp(s)] == "-ts" + digits;
    NoDashes("ts" + digits);
    assert ("-ts" + digits)[1..] == "ts" + digits;
  }

  /** A match in three pieces. */
  lemma {:induction false} MatchPieces(f: string, x: string)
    requires x <= f
    ensures f == x + (f[|x|..|x| + Stamp(f[|x|..])] + Behind(f, x))
    ensures f[|x|..|x| + Stamp(f[|x|..])] == f[|x|..][..Stamp(f[|x|..])]
  {
  }

  lemma {:induction false} CountDashes(f: string, x: string, y: string)
    requires IsVersion(x)
    ensures Dashes(y) == 0 ==> Dashes(Sub(f, x, y)) + Stamped(f, x) == Dashes(f)
    ensures Dashes(y) == 1 ==> Dashes(Sub(f, x, y)) + Stamped(f, x) == Dashes(f) + Matches(f, x)
    decreases |f|
  {
    if x <= f {
      var rest := Behind(f, x);
      var stamp := f[|x|..|x| + Stamp(f[|x|..])];
      CountDashes(rest, x, y);
      DashesAppend(y, Sub(rest, x, y));
      MatchPieces(f, x);
      DashesAppend(x, stamp + rest);
      DashesAppend(stamp, rest);
      NoDashes(x);
      if Stamp(f[|x|..]) > 0 {
        StampHasOneDash(f[|x|..]);
      } else {
        assert stamp == "";
      }
    } else if f != "" {
      CountDashes(f[1..], x, y);
      assert Sub(f, x, y)[1..] == Sub(f[1..], x, y);
    }
  }

  lemma {:induction false} CountLength(f: string, x: string, y: string)
    requires x != "" && Stamped(f, x) == 0
    ensures |y| > |x| ==> |Sub(f, x, y)| >= |f| + Matches(f, x)
    ensures |y| < |x| ==> |Sub(f, x, y)| + Matches(f, x) <= |f|
    decreases |f|
  {
    if x <= f {
      CountLength(Behind(f, x), x, y);
    } else if f != "" {
      CountLength(f[1..], x, y);
    }
  }

  lemma {:induction false} ContainsIffMatches(f: string, x: string)
    requires x != ""
    ensures Contains(f, x) <==> Matches(f, x) > 0
    decreases |f|
  {
    if !(x <= f) && f != "" {
      ContainsIffMatches(f[1..], x);
    }
  }

  // ---------------------------------------------------------------------
  // When the name stays the same
  // ---------------------------------------------------------------------

  lemma {:induction false} SameLengthFixed(f: string, x: string, y: string)
    requires x != "" && |x| == |y| && Sub(f, x, y) == f && Matches(f, x) > 0
    ensures x == y
    decreases |f|
  {
    if x <= f {
      assert f[..|x|] == (y + Sub(Behind(f, x), x, y))[..|y|] == y;
    } else {
      assert Sub(f, x, y)[1..] == Sub(f[1..], x, y);
      SameLengthFixed(f[1..], x, y);
    }
  }

  /** Another version always gives another name. */
  lemma {:induction false} OtherVersionOtherName(f: string, x: string, y: string)
    requires IsVersion(x) && IsVersion(y) && x != y && Contains(f, x)
    ensures Sub(f, x, y) != f
  {
    if Sub(f, x, y) == f {
      ContainsIffMatches(f, x);
      NoDashes(y);
      CountDashes(f, x, y);
      CountLength(f, x, y);
      SameLengthFixed(f, x, y);
    }
  }

  /** Two texts without dashes that a text starts with, each followed by a dash, are one. */
  lemma {:induction false} UpToTheDash(s: string, x: string, v: string)
    requires '-' !in x && '-' !in v && x <= s && v <= s
    requires |x| < |s| && |v| < |s| && s[|x|] == '-' && s[|v|] == '-'
    ensures x == v
  {
    assert forall i | 0 <= i < |x| :: s[i] == x[i];
    assert forall i | 0 <= i < |v| :: s[i] == v[i];
  }

  /** Replacing versions by longer texts leaves the first character, or the empty text. */
  lemma {:induction false} SubKeepsFirst(f: string, x: string, y: string)
    requires x != "" && x <= y
    ensures f == "" <==> Sub(f, x, y) == ""
    ensures f != "" ==> Sub(f, x, y)[0] == f[0]
  {
  }

  /** A longer run of digits cannot have come from the shorter stamp and what follows it. */
  lemma {:induction false} StampKept(r: string, now: string, x: string, y: string)
    requires x != "" && x <= y && AllDigits(now) && r == now + Sub(r[Digits(r)..], x, y)
    ensures Digits(r) == |now| && r[..Digits(r)] == now && Sub(r[Digits(r)..], x, y) == r[Digits(r)..]
  {
    hide Digits, Sub;
    var n, rest := Digits(r), r[Digits(r)..];
    var tail := Sub(rest, x, y);
    SubKeepsFirst(rest, x, y);
    assert forall i | 0 <= i < |now| :: r[i] == now[i];
    assert forall i | 0 <= i < n :: IsDigit(r[..n][i]) && r[..n][i] == r[i];
    assert tail != "" ==> tail[0] == r[|now|];
    assert n == |now|;
    assert r[|now|..] == tail;
  }

  /** Where a stamped version was put and nothing changed, the version and the stamp were there. */
  lemma {:induction false} MatchKept(f: string, x: string, v: string, now: string)
    requires IsVersion(x) && IsVersion(v) && AllDigits(now)
    requires x <= f && Stamp(f[|x|..]) > 0 && Sub(f, x, v + "-ts" + now) == f
    ensures v == x && f[|x|..|x| + Stamp(f[|x|..])] == "-ts" + now
    ensures Sub(Behind(f, x), x, v + "-ts" + now) == Behind(f, x)
  {
    hide Stamp, Digits;
    var y, rest := v + "-ts" + now, Behind(f, x);
    var tail := Sub(rest, x, y);
    assert f == y + tail;
    VersionKept(f, x, v, now, tail);
    StampBehind(f, x, now, tail);
    StampKept(f[|x| + 3..], now, x, y);
  }

  lemma {:induction false} VersionKept(f: string, x: string, v: string, now: string, tail: string)
    requires IsVersion(x) && IsVersion(v) && x <= f && Stamp(f[|x|..]) > 0 && f == v + "-ts" + now + tail
    ensures v == x
  {
    hide Digits;
    assert v == f[..|v|] && f[|v|] == '-';
    assert f[|x|] == f[|x|..][0] == '-';
    UpToTheDash(f, x, v);
  }

  lemma {:induction false} StampBehind(f: string, x: string, now: string, tail: string)
    requires x <= f && Stamp(f[|x|..]) > 0 && f == x + "-ts" + now + tail
    ensures |x| + 3 <= |f|
    ensures var r := f[|x| + 3..];
            && r == now + tail && Stamp(f[|x|..]) == 3 + Digits(r) && Behind(f, x) == r[Digits(r)..]
            && f[|x|..|x| + Stamp(f[|x|..])] == "-ts" + r[..Digits(r)]
  {
    hide Digits;
    assert f[|x|..][3..] == f[|x| + 3..];
    assert f[|x|..][..3] == "-ts";
  }

  lemma {:induction false} StampedFixed(f: string, x: string, v: string, now: string)
    requires IsVersion(x) && IsVersion(v) && now != "" && AllDigits(now)
    requires Stamped(f, x) == Matches(f, x) && Sub(f, x, v + "-ts" + now) == f
    ensures AllCarry(f, x, "-ts" + now) && (Matches(f, x) > 0 ==> v == x)
    decreases |f|
  {
    var y := v + "-ts" + now;
    if x <= f {
      AtMostMatches(Behind(f, x), x);
      MatchKept(f, x, v, now);
      StampedFixed(Behind(f, x), x, v, now);
    } else if f != "" {
      assert Sub(f, x, y)[1..] == Sub(f[1..], x, y);
      StampedFixed(f[1..], x, v, now);
    }
  }

  lemma {:induction false} AtMostMatches(f: string, x: string)
    requires x != ""
    ensures Stamped(f, x) <= Matches(f, x)
    decreases |f|
  {
    if x <= f {
      AtMostMatches(Behind(f, x), x);
    } else if f != "" {
      AtMostMatches(f[1..], x);
    }
  }

  lemma {:induction false} CarriedIsFixed(f: string, x: string, stamp: string)
    requires x != "" && AllCarry(f, x, stamp)
    ensures Sub(f, x, x + stamp) == f
    decreases |f|
  {
    hide Stamp;
    if x <= f {
      var rest := Behind(f, x);
      CarriedIsFixed(rest, x, stamp);
      assert Sub(f, x, x + stamp) == x + stamp + rest;
      assert x + stamp + rest == x + (stamp + rest);
      MatchPieces(f, x);
    } else if f != "" {
      CarriedIsFixed(f[1..], x, stamp);
    }
  }

  lemma {:induction false} SameVersionName(f: string, x: string, v: string, now: string)
    requires IsVersion(x) && IsVersion(v) && now != "" && AllDigits(now) && Contains(f, x)
    ensures Sub(f, x, v + "-ts" + now) == f <==> v == x && AllCarry(f, x, "-ts" + now)
  {
    var y := v + "-ts" + now;
    assert x + ("-ts" + now) == x + "-ts" + now;
    ContainsIffMatches(f, x);
    if Sub(f, x, y) == f {
      assert y == v + ("-ts" + now);
      DashesAppend(v, "-ts" + now);
      NoDashes(v);
      NoDashes("ts" + now);
      assert ("-ts" + now)[1..] == "ts" + now;
      CountDashes(f, x, y);
      StampedFixed(f, x, v, now);
    }
    if v == x && AllCarry(f, x, "-ts" + now) {
      CarriedIsFixed(f, x, "-ts" + now);
    }
  }

  /** A name without the version in it always changes. */
  lemma {:induction false} AppendedNameDiffers(f: string, v: string)
    ensures RStrip(f) + "-v" + v + ".mbp" != f
  {
    var n := |RStrip(f)|;
    assert (RStrip(f) + "-v" + v + ".mbp")[n] == '-';
  }

  /**
   When a replacement overwrites the file it replaces: only when the same version
   is uploaded again within the millisecond that the name already carries.
   */
  lemma {:induction false} NameKept(f: string, version: string, newVersion: string, same: bool, now: string)
    requires IsVersion(version) && IsVersion(newVersion) && now != "" && AllDigits(now)
    requires version == newVersion ==> same
    ensures NewName(f, version, newVersion, same, now) == f <==>
              version == newVersion && Contains(f, version) && AllCarry(f, version, "-ts" + now)
  {
    if !Contains(f, version) {
      AppendedNameDiffers(f, newVersion);
    } else if same {
      SameVersionName(f, version, newVersion, now);
    } else {
      OtherVersionOtherName(f, version, newVersion);
    }
  }

  // ---------------------------------------------------------------------
  // Names of the usual form
  // ---------------------------------------------------------------------

  lemma {:induction false} SubBehind(pre: string, f: string, x: string, y: string)
    requires x != "" && x[0] !in pre
    ensures Sub(pre + f, x, y) == pre + Sub(f, x, y) && (Contains(f, x) ==> Contains(pre + f, x))
    decreases |pre|
  {
    if pre == "" {
      assert pre + f == f && pre + Sub(f, x, y) == Sub(f, x, y);
    } else {
      assert (pre + f)[1..] == pre[1..] + f && !(x <= pre + f);
      SubBehind(pre[1..], f, x, y);
      assert [pre[0]] + (pre[1..] + Sub(f, x, y)) == pre + Sub(f, x, y);
    }
  }

  /** A name with one occurrence of the version, stamped or not. */
  lemma {:induction false} SubAround(pre: string, x: string, stamp: string, post: string, y: string)
    requires x != "" && x[0] !in pre && x[0] !in post && Stamp(stamp + post) == |stamp|
    ensures Sub(pre + (x + (stamp + post)), x, y) == pre + (y + post)
    ensures Contains(pre + (x + (stamp + post)), x)
  {
    var f := x + (stamp + post);
    SubBehind(pre, f, x, y);
    assert f[|x|..] == stamp + post;
    assert Behind(f, x) == post;
    SubBehind(post, "", x, y);
    assert post + "" == post && post + Sub("", x, y) == post;
  }

  lemma {:induction false} StampOf(now: string, post: string)
    requires now != "" && AllDigits(now) && (post != "" ==> !IsDigit(post[0]))
    ensures Stamp("-ts" + now + post) == |"-ts" + now|
  {
    var s := now + post;
    assert ("-ts" + now + post)[3..] == s;
    assert forall i | 0 <= i < |now| :: s[i] == now[i];
    assert post != "" ==> s[|now|] == post[0];
    assert forall i | 0 <= i < Digits(s) :: s[..Digits(s)][i] == s[i];
    assert Digits(s) == |now|;
  }

  /** The same version uploaded again in the millisecond of its stamp: the name stays. */
  lemma {:induction false} SameMillisecond(pre: string, v: string, now: string)
    requires IsVersion(v) && v[0] !in pre && v[0] !in ".mbp" && now != "" && AllDigits(now)
    ensures var f := pre + (v + ("-ts" + now + ".mbp")); NewName(f, v, v, true, now) == f
  {
    StampOf(now, ".mbp");
    SubAround(pre, v, "-ts" + now, ".mbp", v + "-ts" + now);
    assert v + "-ts" + now + ".mbp" == v + ("-ts" + now + ".mbp");
  }

  /** A name without the version in it gets the version appended, before the suffix. */
  lemma {:induction false} VersionAppended(base: string, v: string, w: string, same: bool, now: string)
    requires v != "" && base != "" && base[|base| - 1] !in ".mbp" && !Contains(base + ".mbp", v)
    ensures NewName(base + ".mbp", v, w, same, now) == base + "-v" + w + ".mbp"
  {
    var f := base + ".mbp";
    var r := RStrip(f);
    assert forall i | |base| <= i < |f| :: f[i] in ".mbp";
    assert f[|base| - 1] == base[|base| - 1];
    assert forall i | 0 <= i < |r| :: r[i] == f[i];
    assert |r| == |base|;
    assert r == base;
  }

  /** Another version in a name of the usual form: exactly the version changes. */
  lemma {:induction false} NextVersion(pre: string, v: string, w: string, now: string)
    requires IsVersion(v) && v[0] !in pre && v[0] !in ".mbp"
    ensures NewName(pre + (v + ".mbp"), v, w, false, now) == pre + (w + ".mbp")
  {
    assert "" + ".mbp" == ".mbp";
    SubAround(pre, v, "", ".mbp", w);
  }
}
