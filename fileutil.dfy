/**
 * Where a screenshot is written: the dated directory under the base directory and
 * the file name derived from the GitHub user and a random UUID.
 */
module FileUtil {

  import opened Wrappers
  import opened Text

  /** A path as its list of segments. */
  type Path = seq<string>

  /** LocalDate: a year (possibly negative), a month and a day of month. */
  datatype Date = Date(year: int, month: nat, day: nat)

  predicate ValidDate(d: Date) {
    1 <= d.month <= 12 && 1 <= d.day <= 31
  }

  /** base.resolve(year).resolve("%02d" month).resolve("%02d" day). */
  function DailyDir(base: Path, d: Date): (p: Path)
    ensures |p| == |base| + 3 && p[..|base|] == base
    ensures ValidDate(d) ==> |p[|base| + 1]| == 2 && |p[|base| + 2]| == 2
  {
    base + [IntToDecimal(d.year), Pad2(d.month), Pad2(d.day)]
  }

  /** The three segments read back as the date they came from. */
  lemma DailyDirSegments(base: Path, d: Date)
    ensures var p := DailyDir(base, d);
            && ParseIntDecimal(p[|base|]) == Some(d.year)
            && AllDigits(p[|base| + 1]) && DecimalValue(p[|base| + 1]) == d.month
            && AllDigits(p[|base| + 2]) && DecimalValue(p[|base| + 2]) == d.day
  {
    IntDecimalRoundTrip(d.year);
    Pad2RoundTrip(d.month);
    Pad2RoundTrip(d.day);
  }

  /** Different days never share a directory. */
  lemma DailyDirInjective(base: Path, d1: Date, d2: Date)
    requires DailyDir(base, d1) == DailyDir(base, d2)
    ensures d1 == d2
  {
    var p1, p2 := DailyDir(base, d1), DailyDir(base, d2);
    assert p1[|base|] == p2[|base|] && p1[|base| + 1] == p2[|base| + 1] && p1[|base| + 2] == p2[|base| + 2];
    IntToDecimalInjective(d1.year, d2.year);
    Pad2Injective(d1.month, d2.month);
    Pad2Injective(d1.day, d2.day);
  }

  const Separator: string := "_"
  const PngSuffix: string := ".png"

  /** UUID.toString(): 36 characters, hyphens at 8, 13, 18 and 23, lower-case hex elsewhere. */
  predicate IsUuidText(u: string) {
    && |u| == 36
    && forall i | 0 <= i < 36 ::
         if i == 8 || i == 13 || i == 18 || i == 23 then u[i] == '-'
         else ('0' <= u[i] <= '9' || 'a' <= u[i] <= 'f')
  }

  /** "%s_%s.png" formatted with the user name and the UUID. */
  function SuggestPngName(user: string, uuid: string): (name: string)
    ensures StartsWith(name, user + Separator)
    ensures EndsWith(name, PngSuffix)
    ensures |name| == |user| + |uuid| + 5
  {
    user + Separator + uuid + PngSuffix
  }

  /** The UUID part of a name, given the user it was made for. */
  function UuidOf(name: string, user: string): string
    requires |name| >= |user| + 5
  {
    name[|user| + 1..|name| - 4]
  }

  lemma SuggestPngNameRoundTrip(user: string, uuid: string)
    ensures UuidOf(SuggestPngName(user, uuid), user) == uuid
  {
    var name := SuggestPngName(user, uuid);
    assert name == (user + Separator) + uuid + PngSuffix;
  }

  /** Distinct UUIDs give distinct names for the same user. */
  lemma SuggestPngNameInjective(user: string, a: string, b: string)
    requires SuggestPngName(user, a) == SuggestPngName(user, b)
    ensures a == b
  {
    SuggestPngNameRoundTrip(user, a);
    SuggestPngNameRoundTrip(user, b);
  }

  /** With UUID-shaped tokens the name determines both the user and the UUID. */
  lemma SuggestPngNameDeterminesUser(u1: string, a: string, u2: string, b: string)
    requires IsUuidText(a) && IsUuidText(b)
    requires SuggestPngName(u1, a) == SuggestPngName(u2, b)
    ensures u1 == u2 && a == b
  {
    var name := SuggestPngName(u1, a);
    assert |u1| == |u2|;
    assert u1 == name[..|u1|] == u2;
    SuggestPngNameInjective(u1, a, b);
  }
}
