/**
 * The contact-form validation rules of portfolio-script.js: one regular
 * expression per field name, tested against the trimmed field value, a lenient
 * check run on blur and input, and a strict check that gates submission.
 */
module FormRules {
  import opened Utf16
  import opened Wrappers

  const At: Unit := 0x40
  const Dot: Unit := 0x2E

  datatype Rule = NameRule | EmailRule | SubjectRule | MessageRule

  /** The `validationRules` table, keyed by the input's `name` attribute. */
  function RuleFor(fieldName: string): Option<Rule> {
    match fieldName
    case "name" => Some(NameRule)
    case "email" => Some(EmailRule)
    case "subject" => Some(SubjectRule)
    case "message" => Some(MessageRule)
    case _ => None
  }

  /** `/^[a-zA-Z\s]{3,50}$/` */
  predicate NamePattern(t: Text) {
    3 <= |t| <= 50 && forall k :: 0 <= k < |t| ==> IsAsciiLetter(t[k]) || IsWs(t[k])
  }

  /** `[^\s@]*`: no whitespace and no '@'. */
  predicate Clean(t: Text) {
    forall k :: 0 <= k < |t| ==> !IsWs(t[k]) && t[k] != At
  }

  /**
   * One way `/^[^\s@]+@[^\s@]+\.[^\s@]+$/` can match `t`: the '@' at `i`, the
   * escaped '.' at `j`, and three non-empty clean runs around them.
   */
  predicate EmailSplit(t: Text, i: int, j: int) {
    && 0 < i && i + 1 < j && j + 1 < |t|
    && t[i] == At && t[j] == Dot
    && Clean(t[..i]) && Clean(t[i + 1..j]) && Clean(t[j + 1..])
  }

  /** The email pattern matches when some choice of the backtracking split works. */
  predicate EmailPattern(t: Text) {
    exists i, j | 0 <= i < |t| && 0 <= j < |t| :: EmailSplit(t, i, j)
  }

  /** `/^.{lo,hi}$/`: between `lo` and `hi` code units, none a line terminator. */
  predicate LinePattern(t: Text, lo: nat, hi: nat) {
    lo <= |t| <= hi && forall k :: 0 <= k < |t| ==> !IsLineTerminator(t[k])
  }

  predicate Matches(rule: Rule, t: Text) {
    match rule
    case NameRule => NamePattern(t)
    case EmailRule => EmailPattern(t)
    case SubjectRule => LinePattern(t, 5, 100)
    case MessageRule => LinePattern(t, 10, 1000)
  }

  /** What the validators read of an input or textarea. */
  datatype Field = Field(name: string, value: Text)

  /** The per-field test of the submit handler: `!rules || rules.pattern.test(value.trim())`. */
  predicate SubmitAccepts(f: Field) {
    match RuleFor(f.name)
    case None => true
    case Some(rule) => Matches(rule, Trim(f.value))
  }

  /** The `Array.from(formInputs).every(...)` check that decides whether the form is sent. */
  function AllValid(fields: seq<Field>): (ok: bool)
    ensures ok <==> forall i :: 0 <= i < |fields| ==> SubmitAccepts(fields[i])
  {
    if fields == [] then true else SubmitAccepts(fields[0]) && AllValid(fields[1..])
  }

  /** The inline border colour `validateField` writes. */
  datatype Border = Inherit | ErrorRed

  /** What `validateField` returns and the border it writes (`None`: border left as it was). */
  datatype Check = Check(valid: bool, border: Option<Border>)

  /**
   * `validateField`: a field without a rule, or whose trimmed value is blank,
   * passes and keeps its border; any other field passes exactly when the strict
   * submit test does, and its border shows the verdict.
   */
  function ValidateField(f: Field): (c: Check)
    ensures c.valid <==> SubmitAccepts(f) || Trim(f.value) == []
    ensures c.border.None? <==> RuleFor(f.name).None? || Trim(f.value) == []
    ensures c.border.Some? ==> c.border.value == (if c.valid then Inherit else ErrorRed)
  {
    match RuleFor(f.name)
    case None => Check(true, None)
    case Some(rule) =>
      var t := Trim(f.value);
      if t == [] then Check(true, None)
      else
        var ok := Matches(rule, t);
        Check(ok, Some(if ok then Inherit else ErrorRed))
  }

  /** A blank value passes the lenient check but fails the strict one whenever the field has a rule. */
  lemma BlankRuledFieldRejectedOnSubmit(f: Field)
    requires RuleFor(f.name).Some? && AllWs(f.value)
    ensures ValidateField(f).valid && !SubmitAccepts(f)
  {
  }

  /** The strict check is the lenient one minus blank values. */
  lemma SubmitImpliesBlur(fields: seq<Field>)
    requires AllValid(fields)
    ensures forall i :: 0 <= i < |fields| ==> ValidateField(fields[i]).valid
  {
  }

  // ----- the name rule -----

  /** The name rule, stated on the raw value: the trimmed value has 3..50 units, each a letter or whitespace. */
  lemma NameRuleMeaning(v: Text)
    ensures SubmitAccepts(Field("name", v)) <==>
      3 <= |Trim(v)| <= 50 && forall k :: 0 <= k < |Trim(v)| ==> IsAsciiLetter(Trim(v)[k]) || IsWs(Trim(v)[k])
  {
    assert RuleFor("name") == Some(NameRule);
  }

  /** Inner spaces are allowed: "  Jo Do " passes the name rule. */
  lemma NameWithInnerSpace()
    ensures SubmitAccepts(Field("name", [0x20, 0x20, 0x4A, 0x6F, 0x20, 0x44, 0x6F, 0x20]))
  {
    TrimJoDo();
    NamePatternJoDo();
    assert RuleFor("name") == Some(NameRule);
  }

  lemma NamePatternJoDo()
    ensures NamePattern([0x4A, 0x6F, 0x20, 0x44, 0x6F])
  {
    var t: Text := [0x4A, 0x6F, 0x20, 0x44, 0x6F];
    forall k | 0 <= k < |t| ensures IsAsciiLetter(t[k]) || IsWs(t[k]) {
      assert t[k] in {0x4A, 0x6F, 0x20, 0x44};
    }
  }

  lemma TrimJoDo()
    ensures Trim([0x20, 0x20, 0x4A, 0x6F, 0x20, 0x44, 0x6F, 0x20]) == [0x4A, 0x6F, 0x20, 0x44, 0x6F]
  {
    var v: Text := [0x20, 0x20, 0x4A, 0x6F, 0x20, 0x44, 0x6F, 0x20];
    var lo, hi := LeadingWs(v), TextEnd(v);
    assert IsWs(v[0]) && IsWs(v[1]) && !IsWs(v[2]) && !IsWs(v[6]) && IsWs(v[7]);
    assert lo == 2;
    assert hi == 7;
    assert v[2..7] == [0x4A, 0x6F, 0x20, 0x44, 0x6F];
  }

  // ----- the email rule -----

  /** The '.' the domain needs: neither its first nor its last unit. */
  predicate InnerDot(d: Text) {
    exists k | 0 < k < |d| - 1 :: d[k] == Dot
  }

  /** `t` is `L + "@" + D` with `L` and `D` non-empty and clean, and `D` has an inner '.'. */
  predicate EmailShapeAt(t: Text, a: int) {
    0 < a < |t| - 1 && t[a] == At && Clean(t[..a]) && Clean(t[a + 1..]) && InnerDot(t[a + 1..])
  }

  lemma SplitGivesShape(t: Text, i: int, j: int)
    requires EmailSplit(t, i, j)
    ensures EmailShapeAt(t, i)
  {
    var d := t[i + 1..];
    forall k | 0 <= k < |d| ensures !IsWs(d[k]) && d[k] != At {
      if i + 1 + k < j {
        assert d[k] == t[i + 1..j][k];
      } else if i + 1 + k > j {
        assert d[k] == t[j + 1..][k - (j - i)];
      }
    }
    assert d[j - i - 1] == Dot;
  }

  lemma ShapeGivesSplit(t: Text, a: int, k: int)
    requires EmailShapeAt(t, a) && 0 < k < |t[a + 1..]| - 1 && t[a + 1..][k] == Dot
    ensures EmailSplit(t, a, a + 1 + k)
  {
    var d := t[a + 1..];
    var j := a + 1 + k;
    assert t[a + 1..j] == d[..k];
    assert t[j + 1..] == d[k + 1..];
  }

  /** The backtracking match succeeds exactly when the value has the `L@D` shape. */
  lemma {:induction false} EmailPatternShape(t: Text)
    ensures EmailPattern(t) <==> exists a :: EmailShapeAt(t, a)
  {
    if EmailPattern(t) {
      var i, j :| 0 <= i < |t| && 0 <= j < |t| && EmailSplit(t, i, j);
      SplitGivesShape(t, i, j);
    }
    if exists a :: EmailShapeAt(t, a) {
      var a :| EmailShapeAt(t, a);
      var k :| 0 < k < |t[a + 1..]| - 1 && t[a + 1..][k] == Dot;
      ShapeGivesSplit(t, a, k);
      assert 0 <= a + 1 + k < |t|;
    }
  }

  /** Hence an accepted email address has exactly one '@'. */
  lemma EmailSingleAt(t: Text)
    requires EmailPattern(t)
    ensures multiset(t)[At] == 1
  {
    var i, j :| 0 <= i < |t| && 0 <= j < |t| && EmailSplit(t, i, j);
    SplitGivesShape(t, i, j);
    assert t == t[..i] + [At] + t[i + 1..];
    CleanHasNoAt(t[..i]);
    CleanHasNoAt(t[i + 1..]);
    assert multiset(t) == multiset(t[..i]) + multiset{At} + multiset(t[i + 1..]) by {
      calc {
        multiset(t);
        multiset(t[..i] + [At] + t[i + 1..]);
        multiset(t[..i] + [At]) + multiset(t[i + 1..]);
        multiset(t[..i]) + multiset([At]) + multiset(t[i + 1..]);
      }
    }
  }

  lemma CleanHasNoAt(t: Text)
    requires Clean(t)
    ensures multiset(t)[At] == 0
  {
    assert At !in t;
  }

  /** "jo@x.com" passes the email rule. */
  lemma EmailExample()
    ensures EmailPattern([0x6A, 0x6F, 0x40, 0x78, 0x2E, 0x63, 0x6F, 0x6D])
  {
    var t: Text := [0x6A, 0x6F, 0x40, 0x78, 0x2E, 0x63, 0x6F, 0x6D];
    assert EmailSplit(t, 2, 4);
  }

  /** "a@b@c.d" fails the email rule: a second '@'. */
  lemma EmailTwoAtsRejected()
    ensures !EmailPattern([0x61, 0x40, 0x62, 0x40, 0x63, 0x2E, 0x64])
  {
    var t: Text := [0x61, 0x40, 0x62, 0x40, 0x63, 0x2E, 0x64];
    if EmailPattern(t) {
      EmailSingleAt(t);
      assert false;
    }
  }

  /** A single '@' is not enough: "a@b" has one and is rejected, its domain having no '.'. */
  lemma OneAtNotEnough()
    ensures var t: Text := [0x61, 0x40, 0x62]; multiset(t)[At] == 1 && !EmailPattern(t)
  {
    var t: Text := [0x61, 0x40, 0x62];
    assert t == [0x61] + [At] + [0x62];
  }

  // ----- the subject and message rules -----

  /** A message passes iff its trimmed value has 10..1000 units and no line terminator. */
  lemma MessageRuleMeaning(v: Text)
    ensures SubmitAccepts(Field("message", v)) <==>
      10 <= |Trim(v)| <= 1000 && forall k :: 0 <= k < |Trim(v)| ==> !IsLineTerminator(Trim(v)[k])
  {
    assert RuleFor("message") == Some(MessageRule);
  }

  /** A subject passes iff its trimmed value has 5..100 units and no line terminator. */
  lemma SubjectRuleMeaning(v: Text)
    ensures SubmitAccepts(Field("subject", v)) <==>
      5 <= |Trim(v)| <= 100 && forall k :: 0 <= k < |Trim(v)| ==> !IsLineTerminator(Trim(v)[k])
  {
    assert RuleFor("subject") == Some(SubjectRule);
  }

  /** A message with a line break inside its trimmed value is rejected whatever its length. */
  lemma MultiLineMessageRejected(v: Text, k: int)
    requires 0 <= k < |Trim(v)| && IsLineTerminator(Trim(v)[k])
    ensures !SubmitAccepts(Field("message", v)) && !SubmitAccepts(Field("subject", v))
  {
    var t := Trim(v);
    assert !LinePattern(t, 10, 1000) && !LinePattern(t, 5, 100);
    assert RuleFor("message") == Some(MessageRule);
    assert RuleFor("subject") == Some(SubjectRule);
  }
}
