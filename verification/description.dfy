/**
 * The workout title built by `_setDescription`: the capitalised type, " on ", the month
 * name, a space, the day of the week as a number, and a trailing space — for instance
 * "Running on July 3 ". The day printed is `getDay()` (0 = Sunday), not the day of the
 * month; the model keeps that.
 *
 * `ParseLabel` reads a label back into its kind, month and weekday. The two round-trip
 * lemmas show that a label loses nothing and that every parsable string is a label.
 */
module Description {
  import opened Wrappers
  import opened Workouts

  /** The month table of `_setDescription`, indexed by `getMonth()`. */
  const MonthNames: seq<string> := [
    "January", "February", "March", "April", "May", "June",
    "July", "August", "September", "October", "November", "December"]

  /** `toUpperCase` on one character, for the ASCII letters the type names use. */
  function Upper(c: char): (u: char)
    ensures 'a' <= c <= 'z' ==> 'A' <= u <= 'Z' && u as int - c as int == 'A' as int - 'a' as int
    ensures !('a' <= c <= 'z') ==> u == c
  {
    if 'a' <= c <= 'z' then (c as int - 'a' as int + 'A' as int) as char else c
  }

  /** The first character upper-cased, the rest copied: `s[0].toUpperCase() + s.slice(1)`. */
  function Capitalize(s: string): (r: string)
    requires |s| > 0
    ensures |r| == |s|
    ensures r[0] == Upper(s[0])
    ensures r[1..] == s[1..]
  {
    [Upper(s[0])] + s[1..]
  }

  /** The decimal rendering of a day of the week, one digit. */
  function DigitChar(d: Weekday): (c: char)
    ensures '0' <= c <= '6'
    ensures c as int - '0' as int == d
  {
    ('0' as int + d) as char
  }

  /** The label for a workout of type `typeName` created in `month` on `weekday`. */
  function Label(typeName: string, month: Month, weekday: Weekday): (r: string)
    requires |typeName| > 0
    ensures |r| == |typeName| + 4 + |MonthNames[month]| + 3
    ensures r[0] == Upper(typeName[0]) && r[1..|typeName|] == typeName[1..]
    ensures r[|typeName|..|typeName| + 4] == " on "
    ensures r[|typeName| + 4..|r| - 3] == MonthNames[month]
    ensures r[|r| - 3] == ' ' && r[|r| - 2] == DigitChar(weekday) && r[|r| - 1] == ' '
  {
    Capitalize(typeName) + " on " + MonthNames[month] + " " + [DigitChar(weekday)] + " "
  }

  /** The title of a workout, as shown in its list entry and its marker popup. */
  function Describe(w: Workout): (r: string)
    ensures ParseLabel(r) == Some(PartsOf(w))
    ensures r[|r| - 1] == ' '
  {
    ParseLabelOfLabel(PartsOf(w));
    Label(KindName(KindOf(w)), w.date.month, w.date.weekday)
  }

  /** The first position of `x` in `xs`, if any. */
  function IndexOf<T(==)>(xs: seq<T>, x: T): (r: Option<nat>)
    ensures r.Some? ==> r.value < |xs| && xs[r.value] == x
    ensures r.Some? ==> forall j :: 0 <= j < r.value ==> xs[j] != x
    ensures r.None? <==> x !in xs
  {
    if |xs| == 0 then None
    else if xs[0] == x then Some(0)
    else match IndexOf(xs[1..], x)
      case None => None
      case Some(i) => Some(i + 1)
  }

  /** No two months share a name. */
  lemma MonthNamesDistinct()
    ensures forall i, j :: 0 <= i < j < |MonthNames| ==> MonthNames[i] != MonthNames[j]
  {
  }

  /** What a label encodes. */
  datatype LabelParts = LabelParts(kind: Kind, month: Month, weekday: Weekday)

  /** The part of a label that precedes the month name: "Running on " or "Cycling on ". */
  function KindPrefix(k: Kind): (p: string)
    ensures |p| == 11
  {
    Capitalize(KindName(k)) + " on "
  }

  /** The label of the given parts; `Describe(w)` is `PartsLabel(PartsOf(w))`. */
  function PartsLabel(p: LabelParts): string {
    Label(KindName(p.kind), p.month, p.weekday)
  }

  function PartsOf(w: Workout): LabelParts {
    LabelParts(KindOf(w), w.date.month, w.date.weekday)
  }

  /** Reads the kind back from a label's first eleven characters. */
  function ParseKind(pre: string): (r: Option<Kind>)
    ensures r.Some? ==> KindPrefix(r.value) == pre
  {
    if pre == KindPrefix(RunningKind) then Some(RunningKind)
    else if pre == KindPrefix(CyclingKind) then Some(CyclingKind)
    else None
  }

  /** Reads the weekday back from a label's last three characters. */
  function ParseTail(tail: string): (r: Option<Weekday>)
    ensures r.Some? ==> tail == [' ', DigitChar(r.value), ' ']
  {
    if |tail| == 3 && tail[0] == ' ' && '0' <= tail[1] <= '6' && tail[2] == ' '
    then Some(tail[1] as int - '0' as int)
    else None
  }

  /** Reads a workout label back into its kind, month and weekday; `None` if `s` is no label. */
  function ParseLabel(s: string): (r: Option<LabelParts>)
  {
    if |s| < 14 then None
    else
      var kind, month, weekday :=
        ParseKind(s[..11]), IndexOf(MonthNames, s[11..|s| - 3]), ParseTail(s[|s| - 3..]);
      if kind.None? || month.None? || weekday.None? then None
      else Some(LabelParts(kind.value, month.value, weekday.value))
  }

  /** The two prefixes are "Running on " and "Cycling on ". */
  lemma KindPrefixes()
    ensures KindPrefix(RunningKind) == "Running on "
    ensures KindPrefix(CyclingKind) == "Cycling on "
  {
    assert Upper('r') == 'R' && Upper('c') == 'C';
    assert "running"[1..] == "unning" && "cycling"[1..] == "ycling";
  }

  lemma ParseKindOfPrefix(k: Kind)
    ensures ParseKind(KindPrefix(k)) == Some(k)
  {
    KindPrefixes();
    assert KindPrefix(RunningKind)[0] != KindPrefix(CyclingKind)[0];
  }

  lemma ParseTailOfDigit(d: Weekday)
    ensures ParseTail([' ', DigitChar(d), ' ']) == Some(d)
  {
  }

  lemma MonthIndexOfName(m: Month)
    ensures IndexOf(MonthNames, MonthNames[m]) == Some(m as nat)
  {
    MonthNamesDistinct();
  }

  /** A label is its kind prefix, the month name and the three-character weekday tail. */
  lemma PartsLabelShape(p: LabelParts)
    ensures PartsLabel(p) == KindPrefix(p.kind) + MonthNames[p.month] + [' ', DigitChar(p.weekday), ' ']
  {
    var name := KindName(p.kind);
    var month := MonthNames[p.month];
    var digit := DigitChar(p.weekday);
    assert Capitalize(name) + " on " + month + " " + [digit] + " "
        == (Capitalize(name) + " on ") + month + [' ', digit, ' '];
  }

  /** A label parses back to the parts it was built from. */
  lemma {:induction false} ParseLabelOfLabel(p: LabelParts)
    ensures ParseLabel(PartsLabel(p)) == Some(p)
  {
    var s := PartsLabel(p);
    var pre, month, tail := KindPrefix(p.kind), MonthNames[p.month], [' ', DigitChar(p.weekday), ' '];
    PartsLabelShape(p);
    assert s == pre + month + tail;
    assert s[..11] == pre;
    assert s[11..|s| - 3] == month;
    assert s[|s| - 3..] == tail;
    ParseKindOfPrefix(p.kind);
    MonthIndexOfName(p.month);
    ParseTailOfDigit(p.weekday);
  }

  /** Whatever parses is exactly the label of what it parses to. */
  lemma {:induction false} LabelOfParseLabel(s: string)
    requires ParseLabel(s).Some?
    ensures PartsLabel(ParseLabel(s).value) == s
  {
    var p := ParseLabel(s).value;
    ParsedPieces(s);
    Split3(s, 11, |s| - 3);
    PartsLabelShape(p);
  }

  /** The three pieces of a parsable string are the pieces of the label of its parts. */
  lemma ParsedPieces(s: string)
    requires ParseLabel(s).Some?
    ensures |s| >= 14
    ensures s[..11] == KindPrefix(ParseLabel(s).value.kind)
    ensures s[11..|s| - 3] == MonthNames[ParseLabel(s).value.month]
    ensures s[|s| - 3..] == [' ', DigitChar(ParseLabel(s).value.weekday), ' ']
  {
  }

  lemma Split3<T>(s: seq<T>, i: nat, j: nat)
    requires i <= j <= |s|
    ensures s == s[..i] + s[i..j] + s[j..]
  {
  }

  /** Two workouts have the same title exactly when they agree on kind, month and weekday. */
  lemma DescribeInjective(a: Workout, b: Workout)
    ensures Describe(a) == Describe(b) <==> PartsOf(a) == PartsOf(b)
  {
    assert Describe(a) == PartsLabel(PartsOf(a));
    assert Describe(b) == PartsLabel(PartsOf(b));
    if Describe(a) == Describe(b) {
      ParseLabelOfLabel(PartsOf(a));
      ParseLabelOfLabel(PartsOf(b));
    }
  }
}
