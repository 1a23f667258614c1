/**
  Degree-minute-second arithmetic shared by both page builds: an angle rounded
  to hundredths of an arc second is a whole number N of such hundredths
  (360000 to the degree, 6000 to the minute), and its normal D/M/S form is the
  unique decomposition of N. The canonical `dd°mm′ss.ss″` rendering and its
  reading back are defined here, independently of either build's formatter.
 */
module Sexagesimal {
  import opened JsTypes
  import opened Text

  const PerDegree: int := 360000
  const PerMinute: int := 6000

  /** An angle as whole degrees, whole minutes and hundredths of an arc second. */
  datatype Dms = Dms(degrees: int, minutes: int, centiseconds: int)

  /** Minutes below 60 and seconds below 60.00, nothing negative. */
  predicate Normal(p: Dms)
  {
    p.degrees >= 0 && 0 <= p.minutes < 60 && 0 <= p.centiseconds < PerMinute
  }

  /** The angle in hundredths of an arc second. */
  function Total(p: Dms): int
  {
    p.degrees * PerDegree + p.minutes * PerMinute + p.centiseconds
  }

  /** round(|x| * 360000): |x| in hundredths of an arc second, halves rounded up. */
  function RoundedCentiseconds(x: real): (n: nat)
    ensures -0.5 < n as real - Abs(x) * 360000.0 <= 0.5
  {
    JsRound(Abs(x) * 360000.0)
  }

  /** The normal form of a number of hundredths of an arc second. */
  function Decompose(total: nat): (p: Dms)
    ensures Normal(p) && Total(p) == total
  {
    Dms(total / PerDegree, total % PerDegree / PerMinute, total % PerMinute)
  }

  /** A normal D/M/S triple is the decomposition of its own total. */
  lemma DecomposeUnique(p: Dms)
    requires Normal(p)
    ensures Total(p) >= 0 && Decompose(Total(p)) == p
  {
    var t := Total(p);
    var q := Decompose(t);
    assert p.minutes * PerMinute + p.centiseconds < PerDegree;
    assert q.degrees == p.degrees;
    assert q.minutes * PerMinute + q.centiseconds == p.minutes * PerMinute + p.centiseconds;
  }

  /** The normal form of the rounded angle is within half a hundredth of an arc
      second (1/720000 degree) of |x|. */
  lemma DecomposeApproximates(x: real)
    ensures var p := Decompose(RoundedCentiseconds(x));
            -1.0 / 720000.0 < Total(p) as real / 360000.0 - Abs(x) <= 1.0 / 720000.0
  {
  }

  /** The canonical rendering `dd°mm′ss.ss″`: degrees padded to at least two
      digits and never cut, minutes two digits, seconds two digits, a point and
      two decimals. */
  function DmsText(p: Dms): string
    requires Normal(p)
  {
    Template(PadStart(NatToString(p.degrees), 2, '0'), TwoDigits(p.minutes), SecondsText(p.centiseconds))
  }

  /** The `${dd}°${mm}′${ss}″` template both builds fill in. */
  function Template(dd: string, mm: string, ss: string): string
  {
    dd + "\U{00B0}" + mm + "\U{2032}" + ss + "\U{2033}"
  }

  /** Seconds as two digits, a point and two decimals. */
  function SecondsText(cs: nat): (r: string)
    requires cs < PerMinute
    ensures |r| == 5
  {
    TwoDigits(cs / 100) + "." + TwoDigits(cs % 100)
  }

  /** `s.toFixed(2).padStart(5, '0')`. */
  function SecondsField(s: real): string
  {
    PadStart(ToFixed2(s), 5, '0')
  }

  /** The seconds field of hundredths below 60″ is the canonical one. */
  lemma SecondsFieldOf(cs: nat)
    requires cs < PerMinute
    ensures SecondsField(cs as real / 100.0) == SecondsText(cs)
  {
    ToFixed2OfHundredths(cs);
    NatToStringLength(cs / 100);
    PadStartAppend(NatToString(cs / 100), "." + TwoDigits(cs % 100), 5, '0');
    TwoDigitsIsPadded(cs / 100);
  }

  /** Reads a `dd°mm′ss.ss″` string back; the degree field is everything before
      the degree sign and holds at least two digits, the other fields have fixed
      widths. */
  function ReadDms(s: string): Option<Dms>
  {
    var n := |s|;
    if n >= 12 && s[n - 1] == '\U{2033}' && s[n - 4] == '.' && s[n - 7] == '\U{2032}' && s[n - 10] == '\U{00B0}'
    then ReadDigitFields(s[..n - 10], s[n - 9..n - 7], s[n - 6..n - 4], s[n - 3..n - 1])
    else None
  }

  /** The triple held by the degree, minute, second and hundredths fields, when all are digits. */
  function ReadDigitFields(dd: string, mm: string, ss: string, cc: string): Option<Dms>
  {
    if IsDigits(dd) && IsDigits(mm) && IsDigits(ss) && IsDigits(cc)
    then Some(Dms(DigitsValue(dd), DigitsValue(mm), DigitsValue(ss) * 100 + DigitsValue(cc)))
    else None
  }

  /** Reading the canonical rendering gives back the triple it renders. */
  lemma ReadDmsText(p: Dms)
    requires Normal(p)
    ensures ReadDms(DmsText(p)) == Some(p)
  {
    var dd := PadStart(NatToString(p.degrees), 2, '0');
    var mm := TwoDigits(p.minutes);
    var ss := TwoDigits(p.centiseconds / 100);
    var cc := TwoDigits(p.centiseconds % 100);
    assert DmsText(p) == Template(dd, mm, ss + "." + cc);
    ReadFields(DmsText(p), dd, mm, ss, cc);
    FieldsOfNormal(p);
  }

  /** The four canonical fields of a normal triple read back as that triple. */
  lemma FieldsOfNormal(p: Dms)
    requires Normal(p)
    ensures var dd := PadStart(NatToString(p.degrees), 2, '0');
            && |dd| >= 2
            && ReadDigitFields(dd, TwoDigits(p.minutes), TwoDigits(p.centiseconds / 100), TwoDigits(p.centiseconds % 100)) == Some(p)
  {
    PadZerosValue(NatToString(p.degrees), 2);
    NatToStringValue(p.degrees);
  }

  lemma ReadFields(s: string, dd: string, mm: string, ss: string, cc: string)
    requires |dd| >= 2 && |mm| == 2 && |ss| == 2 && |cc| == 2
    requires s == Template(dd, mm, ss + "." + cc)
    ensures ReadDms(s) == ReadDigitFields(dd, mm, ss, cc)
  {
    TemplateFields(s, dd, mm, ss, cc);
    ReadMarked(s);
  }

  /** Where the fields and the markers of a filled-in template sit. */
  lemma TemplateFields(s: string, dd: string, mm: string, ss: string, cc: string)
    requires |dd| >= 2 && |mm| == 2 && |ss| == 2 && |cc| == 2
    requires s == Template(dd, mm, ss + "." + cc)
    ensures |s| == |dd| + 10
    ensures s[|s| - 1] == '\U{2033}' && s[|s| - 4] == '.' && s[|s| - 7] == '\U{2032}' && s[|s| - 10] == '\U{00B0}'
    ensures s[..|s| - 10] == dd && s[|s| - 9..|s| - 7] == mm && s[|s| - 6..|s| - 4] == ss && s[|s| - 3..|s| - 1] == cc
  {
    assert s == dd + "\U{00B0}" + mm + "\U{2032}" + (ss + "." + cc) + "\U{2033}";
    var t4 := cc + "\U{2033}";
    var t3 := ss + "." + t4;
    assert (ss + "." + cc) + "\U{2033}" == t3;
    var t2 := mm + "\U{2032}" + t3;
    var t1 := "\U{00B0}" + t2;
    assert s == dd + t1;
    var n := |s|;
    assert s[..n - 10] == dd;
    assert s[n - 10..] == t1 && t1[1..] == t2;
    assert s[n - 9..n - 7] == t2[..2] == mm;
    assert s[n - 7..] == t2[2..] && t2[3..] == t3;
    assert s[n - 6..n - 4] == t3[..2] == ss;
    assert s[n - 3..n - 1] == t4[..2] == cc;
  }

  lemma ReadMarked(s: string)
    requires |s| >= 12
    requires s[|s| - 1] == '\U{2033}' && s[|s| - 4] == '.' && s[|s| - 7] == '\U{2032}' && s[|s| - 10] == '\U{00B0}'
    ensures var n := |s|;
            ReadDms(s) == ReadDigitFields(s[..n - 10], s[n - 9..n - 7], s[n - 6..n - 4], s[n - 3..n - 1])
  {
  }
}
