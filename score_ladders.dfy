/** The three threshold ladders of the results page that turn a score (a
    JavaScript number, here a real) into a letter grade, a qualitative label
    and a signal level. Each ladder is specified by a table of floors: the
    result is the best rung whose floor the score reaches. */
module ScoreLadders {
  import opened Common
  import opened SignalBars

  // ---------------------------------------------------------------- grade

  datatype Grade = A | BPlus | B | CPlus | C | D | F

  /** The order F < D < C < C+ < B < B+ < A. */
  function GradeRank(g: Grade): nat
  {
    match g
    case F => 0
    case D => 1
    case C => 2
    case CPlus => 3
    case B => 4
    case BPlus => 5
    case A => 6
  }

  /** The string the page displays for a grade. */
  function GradeText(g: Grade): string
  {
    match g
    case A => "A"
    case BPlus => "B+"
    case B => "B"
    case CPlus => "C+"
    case C => "C"
    case D => "D"
    case F => "F"
  }

  /** Lowest score that earns a grade; F has none. */
  function GradeFloor(g: Grade): Option<real>
  {
    match g
    case A => Some(90.0)
    case BPlus => Some(85.0)
    case B => Some(80.0)
    case CPlus => Some(75.0)
    case C => Some(70.0)
    case D => Some(60.0)
    case F => None
  }

  predicate ReachesGrade(score: real, g: Grade)
  {
    GradeFloor(g).None? || score >= GradeFloor(g).value
  }

  /** The best grade whose floor the score reaches. */
  function GradeFromScore(score: real): (g: Grade)
    ensures ReachesGrade(score, g)
    ensures forall h :: GradeRank(h) > GradeRank(g) ==> !ReachesGrade(score, h)
  {
    if score >= 90.0 then A
    else if score >= 85.0 then BPlus
    else if score >= 80.0 then B
    else if score >= 75.0 then CPlus
    else if score >= 70.0 then C
    else if score >= 60.0 then D
    else F
  }

  /** The bands of the grade ladder, one per grade. */
  lemma GradeBands(score: real)
    ensures GradeFromScore(score) == A <==> score >= 90.0
    ensures GradeFromScore(score) == BPlus <==> 85.0 <= score < 90.0
    ensures GradeFromScore(score) == B <==> 80.0 <= score < 85.0
    ensures GradeFromScore(score) == CPlus <==> 75.0 <= score < 80.0
    ensures GradeFromScore(score) == C <==> 70.0 <= score < 75.0
    ensures GradeFromScore(score) == D <==> 60.0 <= score < 70.0
    ensures GradeFromScore(score) == F <==> score < 60.0
  {
    var g := GradeFromScore(score);
    assert ReachesGrade(score, g);
    assert GradeRank(A) > GradeRank(g) ==> !ReachesGrade(score, A);
    assert GradeRank(BPlus) > GradeRank(g) ==> !ReachesGrade(score, BPlus);
    assert GradeRank(B) > GradeRank(g) ==> !ReachesGrade(score, B);
    assert GradeRank(CPlus) > GradeRank(g) ==> !ReachesGrade(score, CPlus);
    assert GradeRank(C) > GradeRank(g) ==> !ReachesGrade(score, C);
    assert GradeRank(D) > GradeRank(g) ==> !ReachesGrade(score, D);
  }

  /** A higher score never yields a lower grade. */
  lemma GradeMonotone(x: real, y: real)
    requires x <= y
    ensures GradeRank(GradeFromScore(x)) <= GradeRank(GradeFromScore(y))
  {
    var gx, gy := GradeFromScore(x), GradeFromScore(y);
    assert ReachesGrade(x, gx);
    assert ReachesGrade(y, gx);
  }

  // ---------------------------------------------------------------- label

  datatype Label = Excellent | VeryGood | Good | Okay | Weak | Poor

  function LabelRank(l: Label): nat
  {
    match l
    case Poor => 0
    case Weak => 1
    case Okay => 2
    case Good => 3
    case VeryGood => 4
    case Excellent => 5
  }

  /** The string the page displays for a label. */
  function LabelText(l: Label): string
  {
    match l
    case Excellent => "Excellent"
    case VeryGood => "Very Good"
    case Good => "Good"
    case Okay => "Okay"
    case Weak => "Weak"
    case Poor => "Poor"
  }

  /** Lowest score that earns a label; Poor has none. */
  function LabelFloor(l: Label): Option<real>
  {
    match l
    case Excellent => Some(90.0)
    case VeryGood => Some(85.0)
    case Good => Some(80.0)
    case Okay => Some(70.0)
    case Weak => Some(60.0)
    case Poor => None
  }

  predicate ReachesLabel(score: real, l: Label)
  {
    LabelFloor(l).None? || score >= LabelFloor(l).value
  }

  /** The best label whose floor the score reaches. */
  function LabelFromScore(score: real): (l: Label)
    ensures ReachesLabel(score, l)
    ensures forall m :: LabelRank(m) > LabelRank(l) ==> !ReachesLabel(score, m)
  {
    if score >= 90.0 then Excellent
    else if score >= 85.0 then VeryGood
    else if score >= 80.0 then Good
    else if score >= 70.0 then Okay
    else if score >= 60.0 then Label.Weak
    else Poor
  }

  /** The bands of the label ladder. */
  lemma LabelBands(score: real)
    ensures LabelFromScore(score) == Excellent <==> score >= 90.0
    ensures LabelFromScore(score) == VeryGood <==> 85.0 <= score < 90.0
    ensures LabelFromScore(score) == Good <==> 80.0 <= score < 85.0
    ensures LabelFromScore(score) == Okay <==> 70.0 <= score < 80.0
    ensures LabelFromScore(score) == Label.Weak <==> 60.0 <= score < 70.0
    ensures LabelFromScore(score) == Poor <==> score < 60.0
  {
    var l := LabelFromScore(score);
    assert ReachesLabel(score, l);
    assert LabelRank(Excellent) > LabelRank(l) ==> !ReachesLabel(score, Excellent);
    assert LabelRank(VeryGood) > LabelRank(l) ==> !ReachesLabel(score, VeryGood);
    assert LabelRank(Good) > LabelRank(l) ==> !ReachesLabel(score, Good);
    assert LabelRank(Okay) > LabelRank(l) ==> !ReachesLabel(score, Okay);
    assert LabelRank(Label.Weak) > LabelRank(l) ==> !ReachesLabel(score, Label.Weak);
  }

  /** A higher score never yields a lower label. */
  lemma LabelMonotone(x: real, y: real)
    requires x <= y
    ensures LabelRank(LabelFromScore(x)) <= LabelRank(LabelFromScore(y))
  {
    var lx := LabelFromScore(x);
    assert ReachesLabel(y, lx);
  }

  // --------------------------------------------------------------- signal

  /** Lowest score that earns a signal level; Bad has none. */
  function SignalFloor(level: SignalLevel): Option<real>
  {
    match level
    case Strong => Some(85.0)
    case Medium => Some(70.0)
    case Weak => Some(50.0)
    case Bad => None
  }

  predicate ReachesSignal(score: real, level: SignalLevel)
  {
    SignalFloor(level).None? || score >= SignalFloor(level).value
  }

  /** The strongest level whose floor the score reaches. */
  function SignalFromScore(score: real): (level: SignalLevel)
    ensures ReachesSignal(score, level)
    ensures forall m :: SignalRank(m) > SignalRank(level) ==> !ReachesSignal(score, m)
  {
    if score >= 85.0 then Strong
    else if score >= 70.0 then Medium
    else if score >= 50.0 then SignalLevel.Weak
    else Bad
  }

  /** The bands of the signal ladder: they cover every score with no gap. */
  lemma SignalBands(score: real)
    ensures SignalFromScore(score) == Strong <==> score >= 85.0
    ensures SignalFromScore(score) == Medium <==> 70.0 <= score < 85.0
    ensures SignalFromScore(score) == SignalLevel.Weak <==> 50.0 <= score < 70.0
    ensures SignalFromScore(score) == Bad <==> score < 50.0
  {
    var s := SignalFromScore(score);
    assert ReachesSignal(score, s);
    assert SignalRank(Strong) > SignalRank(s) ==> !ReachesSignal(score, Strong);
    assert SignalRank(Medium) > SignalRank(s) ==> !ReachesSignal(score, Medium);
    assert SignalRank(SignalLevel.Weak) > SignalRank(s) ==> !ReachesSignal(score, SignalLevel.Weak);
  }

  /** A higher score never yields a weaker signal. */
  lemma SignalMonotone(x: real, y: real)
    requires x <= y
    ensures SignalRank(SignalFromScore(x)) <= SignalRank(SignalFromScore(y))
  {
    var sx := SignalFromScore(x);
    assert ReachesSignal(y, sx);
  }

  /** Composed with the indicator, a higher score never lights fewer
      segments. */
  lemma BarsMonotone(x: real, y: real)
    requires x <= y
    ensures LitCount(Segments(SignalFromScore(x))) <= LitCount(Segments(SignalFromScore(y)))
  {
    SignalMonotone(x, y);
    LitCountIsActiveBars(SignalFromScore(x));
    LitCountIsActiveBars(SignalFromScore(y));
  }

  // -------------------------------------------------------- displayed text

  /** The strings the summary shows for each grade and label. */
  lemma DisplayedTextTable()
    ensures GradeText(A) == "A" && GradeText(BPlus) == "B+" && GradeText(B) == "B"
    ensures GradeText(CPlus) == "C+" && GradeText(C) == "C" && GradeText(D) == "D" && GradeText(F) == "F"
    ensures LabelText(Excellent) == "Excellent" && LabelText(VeryGood) == "Very Good"
    ensures LabelText(Good) == "Good" && LabelText(Okay) == "Okay"
    ensures LabelText(Label.Weak) == "Weak" && LabelText(Poor) == "Poor"
  {
  }

  /** Distinct grades are displayed differently, and so are distinct labels. */
  lemma DisplayedTextInjective(g: Grade, h: Grade, l: Label, m: Label)
    ensures GradeText(g) == GradeText(h) ==> g == h
    ensures LabelText(l) == LabelText(m) ==> l == m
  {
    if g != h {
      assert |GradeText(g)| != |GradeText(h)| || GradeText(g)[0] != GradeText(h)[0];
    }
    if l != m {
      assert |LabelText(l)| != |LabelText(m)| || LabelText(l)[0] != LabelText(m)[0];
    }
  }
}
