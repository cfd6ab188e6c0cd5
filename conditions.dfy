/** `isQuestionVisible` of the questionnaire: a question's `conditional`
    text is either one of the conditions the hook knows by heart or is read
    as `field op value` by a regular expression and evaluated against the
    responses with JavaScript's `String`, `Number` and `===`. */
module QuestionConditions {
  import opened Common
  import opened PlanModel
  import opened Text
  import opened Dates
  import opened ModuleHoursMap

  // ---------------------------------------------------------------------
  // Values of the responses object as JavaScript sees them
  // ---------------------------------------------------------------------

  /** A response value: a list holds the `String` of each element. */
  datatype JsValue = Undefined | Null | Bool(b: bool) | Num(n: int) | Str(s: string) | List(items: seq<string>) | Object

  function PadTo(s: string, width: nat): string
    decreases width - |s|
  {
    if |s| >= width then s else PadTo("0" + s, width)
  }

  /** The `YYYY-MM-DD` text of a day number. */
  function DateText(d: int): string
  {
    var c := CivilFromDays(d);
    PadTo(IntToString(c.year), 4) + "-" + PadTo(IntToString(c.month), 2) + "-" + PadTo(IntToString(c.day), 2)
  }

  function DateValue(d: Option<int>): JsValue
  {
    if d.None? then Str("") else Str(DateText(d.value))
  }

  /** `responses[field]`. */
  function FieldValue(r: Responses, field: string): JsValue
  {
    match field
    case "project_name" => Str(r.projectName)
    case "client_name" => Str(r.clientName)
    case "language" => Str(r.language)
    case "project_manager" => Str(r.projectManager)
    case "team_members" => List(r.teamMembers)
    case "project_start_date" => DateValue(r.startDate)
    case "project_deadline" => DateValue(r.deadline)
    case "clarity_phase" => Bool(r.clarityPhase)
    case "clarity_hours" => Num(r.clarityHours)
    case "implementation_phase" => Bool(r.implementationPhase)
    case "adoption_phase" => Bool(r.adoptionPhase)
    case "training_hours" => Num(r.trainingHours)
    case "go_live_hours" => Num(r.goLiveHours)
    case "support_hours_per_month" => Num(r.supportHoursPerMonth)
    case "support_months" => Num(r.supportMonths)
    case "module_hours" => Object
    case "custom_modules" => List(seq(|r.customModules|, _ => "[object Object]"))
    case "integrations" => Str(r.integrations)
    case "integration_list" => Str(r.integrationList)
    case "multi_warehouse" => Str(r.multiWarehouse)
    case "warehouse_count" => Num(r.warehouseCount)
    case "selected_template" => if r.selectedTemplate.None? then Null else Str(r.selectedTemplate.value)
    case _ => Undefined
  }

  /** `String(v)`. */
  function ToText(v: JsValue): string
  {
    match v
    case Undefined => "undefined"
    case Null => "null"
    case Bool(b) => if b then "true" else "false"
    case Num(n) => IntToString(n)
    case Str(s) => s
    case List(items) => Join(items, ",")
    case Object => "[object Object]"
  }

  /** The white space of a regular expression's `\s`, which is also what
      `Number` trims. */
  predicate IsSpace(c: char)
  {
    c == ' ' || c == '\t' || c == '\n' || c == '\r' || c == '\U{000B}' || c == '\U{000C}'
    || c == '\U{00A0}' || c == '\U{1680}' || ('\U{2000}' <= c <= '\U{200A}') || c == '\U{2028}'
    || c == '\U{2029}' || c == '\U{202F}' || c == '\U{205F}' || c == '\U{3000}' || c == '\U{FEFF}'
  }

  /** The characters a regular expression's `.` does not match. */
  predicate IsLineTerminator(c: char)
  {
    c == '\n' || c == '\r' || c == '\U{2028}' || c == '\U{2029}'
  }

  /** The characters of `\w`. */
  predicate IsWordChar(c: char)
  {
    ('a' <= c <= 'z') || ('A' <= c <= 'Z') || ('0' <= c <= '9') || c == '_'
  }

  function TrimStart(s: string): (r: string)
    ensures |r| <= |s|
  {
    if s != [] && IsSpace(s[0]) then TrimStart(s[1..]) else s
  }

  function TrimEnd(s: string): (r: string)
    ensures |r| <= |s|
  {
    if s != [] && IsSpace(s[|s| - 1]) then TrimEnd(s[..|s| - 1]) else s
  }

  predicate AllDigits(s: string)
  {
    forall i | 0 <= i < |s| :: IsDigit(s[i])
  }

  /** `Number(s)` on a text; `None` is `NaN`. Only decimal integers with an
      optional sign are read; surrounding white space is ignored and a blank
      text is 0. */
  function TextToNumber(s: string): Option<int>
  {
    var t := TrimEnd(TrimStart(s));
    if t == "" then Some(0)
    else if AllDigits(t) then Some(ParseDigits(t))
    else if |t| > 1 && t[0] == '-' && AllDigits(t[1..]) then Some(-ParseDigits(t[1..]))
    else if |t| > 1 && t[0] == '+' && AllDigits(t[1..]) then Some(ParseDigits(t[1..]))
    else None
  }

  /** `Number(v)`; an array is first turned into its text. */
  function ToNumber(v: JsValue): Option<int>
  {
    match v
    case Undefined => None
    case Null => Some(0)
    case Bool(b) => Some(if b then 1 else 0)
    case Num(n) => Some(n)
    case Str(s) => TextToNumber(s)
    case List(items) => TextToNumber(Join(items, ","))
    case Object => None
  }

  // ---------------------------------------------------------------------
  // Comparisons
  // ---------------------------------------------------------------------

  datatype Op = StrictEq | StrictNe | AtLeast | AtMost | Above | Below

  function OpText(op: Op): string
  {
    match op
    case StrictEq => "==="
    case StrictNe => "!=="
    case AtLeast => ">="
    case AtMost => "<="
    case Above => ">"
    case Below => "<"
  }

  /** The alternatives of the expression, in the order it tries them. */
  const Operators: seq<Op> := [StrictEq, StrictNe, AtLeast, AtMost, Above, Below]

  /** Both numbers are defined and ordered as `cmp` says; a comparison with
      `NaN` is false. */
  predicate NumbersCompare(a: Option<int>, b: Option<int>, op: Op)
  {
    a.Some? && b.Some? &&
    match op
    case AtLeast => a.value >= b.value
    case AtMost => a.value <= b.value
    case Above => a.value > b.value
    case Below => a.value < b.value
    case _ => false
  }

  /** The value of the condition `field op c` for the field's value `v`. */
  predicate Compare(v: JsValue, op: Op, c: string)
  {
    match op
    case StrictEq => ToText(v) == c || v == Bool(c == "true")
    case StrictNe => ToText(v) != c && v != Bool(c == "true")
    case _ => NumbersCompare(ToNumber(v), TextToNumber(c), op)
  }

  /** `!==` is exactly the negation of `===`. */
  lemma StrictNeNegates(v: JsValue, c: string)
    ensures Compare(v, StrictNe, c) == !Compare(v, StrictEq, c)
  {
  }

  /** When both sides are numbers, `>` is the negation of `<=` and `<` the
      negation of `>=`; with `NaN` on either side all four are false. */
  lemma OrderComparisons(v: JsValue, c: string)
    ensures ToNumber(v).Some? && TextToNumber(c).Some? ==>
              (Compare(v, Above, c) == !Compare(v, AtMost, c)) && (Compare(v, Below, c) == !Compare(v, AtLeast, c))
    ensures ToNumber(v).None? || TextToNumber(c).None? ==>
              !Compare(v, Above, c) && !Compare(v, AtMost, c) && !Compare(v, Below, c) && !Compare(v, AtLeast, c)
  {
  }

  /** A boolean field compared with `=== true` is the field itself. */
  lemma BooleanEqualsTrue(b: bool)
    ensures Compare(Bool(b), StrictEq, "true") == b
  {
  }

  /** A text field compared with `=== c` is equal to `c`: the comparison
      with a boolean never holds for a text. */
  lemma TextEquals(s: string, c: string)
    ensures Compare(Str(s), StrictEq, c) == (s == c)
  {
  }

  // ---------------------------------------------------------------------
  // The expression /(\w+)\s*(===|!==|>=|<=|>|<)\s*(.+)/
  // ---------------------------------------------------------------------

  /** The condition the expression reads: field, operator and the value with
      its quotes still in it. */
  datatype Condition = Condition(field: string, op: Op, value: string)

  function WordEnd(s: string, i: nat): (e: nat)
    requires i <= |s|
    ensures i <= e <= |s|
    decreases |s| - i
  {
    if i < |s| && IsWordChar(s[i]) then WordEnd(s, i + 1) else i
  }

  function SpaceEnd(s: string, i: nat): (e: nat)
    requires i <= |s|
    ensures i <= e <= |s|
    decreases |s| - i
  {
    if i < |s| && IsSpace(s[i]) then SpaceEnd(s, i + 1) else i
  }

  function LineEnd(s: string, i: nat): (e: nat)
    requires i <= |s|
    ensures i <= e <= |s|
    decreases |s| - i
  {
    if i < |s| && !IsLineTerminator(s[i]) then LineEnd(s, i + 1) else i
  }

  /** Where `(.+)` starts after the operator ending at `q`: `\s*` gives back
      white space from `k` on until a character `.` matches follows. */
  function ValueStart(s: string, q: nat, k: nat): (r: Option<nat>)
    requires q <= k <= |s|
    ensures r.Some? ==> q <= r.value < |s|
    decreases k - q
  {
    if k < |s| && !IsLineTerminator(s[k]) then Some(k)
    else if k == q then None
    else ValueStart(s, q, k - 1)
  }

  /** The first operator of `ops` found at `p` and followed by a value. */
  function MatchOps(s: string, field: string, p: nat, ops: seq<Op>): Option<Condition>
    requires p <= |s|
    decreases |ops|
  {
    if ops == [] then None
    else
      var t := OpText(ops[0]);
      if MatchAt(s, t, p) then
        var q := p + |t|;
        var k := ValueStart(s, q, SpaceEnd(s, q));
        if k.Some? then Some(Condition(field, ops[0], s[k.value..LineEnd(s, k.value)]))
        else MatchOps(s, field, p, ops[1..])
      else MatchOps(s, field, p, ops[1..])
  }

  /** The leftmost match from position `i` on. A shorter `\w+` is followed
      by a word character, where neither `\s` nor an operator can start, so
      only the whole run of word characters needs trying. */
  function ParseFrom(s: string, i: nat): Option<Condition>
    requires i <= |s|
    decreases |s| - i
  {
    if i == |s| then None
    else if IsWordChar(s[i]) then
      var e := WordEnd(s, i);
      var m := MatchOps(s, s[i..e], SpaceEnd(s, e), Operators);
      if m.Some? then m else ParseFrom(s, i + 1)
    else ParseFrom(s, i + 1)
  }

  function Parse(s: string): Option<Condition>
  {
    ParseFrom(s, 0)
  }

  /** `value.replace(/['"]/g, '')`. */
  function Unquoted(s: string): (r: string)
    ensures forall i | 0 <= i < |r| :: r[i] != '\'' && r[i] != '"'
  {
    if s == [] then []
    else Unquoted(s[..|s| - 1]) + (if s[|s| - 1] == '\'' || s[|s| - 1] == '"' then [] else [s[|s| - 1]])
  }

  // ---------------------------------------------------------------------
  // Reading a condition back
  // ---------------------------------------------------------------------

  predicate IsWord(w: string)
  {
    w != [] && forall i | 0 <= i < |w| :: IsWordChar(w[i])
  }

  /** A value that the expression captures whole after one space. */
  predicate IsPlainValue(v: string)
  {
    v != [] && !IsSpace(v[0]) && forall i | 0 <= i < |v| :: !IsLineTerminator(v[i])
  }

  function Written(c: Condition): string
  {
    c.field + " " + OpText(c.op) + " " + c.value
  }

  lemma {:induction false} WordEndOfWord(s: string, i: nat, j: nat)
    requires i <= j <= |s|
    requires forall k | i <= k < j :: IsWordChar(s[k])
    requires j == |s| || !IsWordChar(s[j])
    ensures WordEnd(s, i) == j
    decreases j - i
  {
    if i < j {
      WordEndOfWord(s, i + 1, j);
    }
  }

  lemma {:induction false} LineEndOfLine(s: string, i: nat)
    requires i <= |s|
    requires forall k | i <= k < |s| :: !IsLineTerminator(s[k])
    ensures LineEnd(s, i) == |s|
    decreases |s| - i
  {
    if i < |s| {
      LineEndOfLine(s, i + 1);
    }
  }

  /** An operator whose text is not at `p` is skipped. */
  lemma SkipOp(s: string, field: string, p: nat, ops: seq<Op>)
    requires p <= |s| && ops != [] && !MatchAt(s, OpText(ops[0]), p)
    ensures MatchOps(s, field, p, ops) == MatchOps(s, field, p, ops[1..])
  {
  }

  lemma {:induction false} SkipOps(s: string, field: string, p: nat, k: nat)
    requires p <= |s| && k <= |Operators|
    requires forall j | 0 <= j < k :: !MatchAt(s, OpText(Operators[j]), p)
    ensures MatchOps(s, field, p, Operators) == MatchOps(s, field, p, Operators[k..])
    decreases k
  {
    if k == 0 {
      assert Operators[0..] == Operators;
    } else {
      SkipOps(s, field, p, k - 1);
      SkipOp(s, field, p, Operators[k - 1..]);
      assert Operators[k - 1..][1..] == Operators[k..];
    }
  }

  /** The first character of an operator's text, or the second one, tells it
      from every operator tried before it (a one-character operator is
      followed by a space). */
  lemma OperatorsDiffer(op: Op, j: nat)
    requires j < OpIndex(op)
    ensures var u := OpText(Operators[j]); var t := OpText(op);
            u[0] != t[0] || (|u| >= 2 && u[1] != (if |t| >= 2 then t[1] else ' '))
  {
  }

  /** Where `op` is written and followed by a space, every operator tried
      before it fails to match. */
  lemma EarlierOpsFail(s: string, field: string, p: nat, op: Op)
    requires p + |OpText(op)| < |s| && s[p..p + |OpText(op)|] == OpText(op) && s[p + |OpText(op)|] == ' '
    ensures MatchOps(s, field, p, Operators) == MatchOps(s, field, p, Operators[OpIndex(op)..])
  {
    var t := OpText(op);
    assert s[p] == t[0];
    assert s[p + 1] == if |t| >= 2 then t[1] else ' ';
    forall j | 0 <= j < OpIndex(op)
      ensures !MatchAt(s, OpText(Operators[j]), p)
    {
      var u := OpText(Operators[j]);
      OperatorsDiffer(op, j);
      if p + |u| <= |s| {
        var x := s[p..p + |u|];
        assert x[0] == s[p];
        if |u| >= 2 {
          assert x[1] == s[p + 1];
        }
      }
    }
    SkipOps(s, field, p, OpIndex(op));
  }

  function OpIndex(op: Op): (k: nat)
    ensures k < |Operators| && Operators[k] == op
  {
    match op
    case StrictEq => 0
    case StrictNe => 1
    case AtLeast => 2
    case AtMost => 3
    case Above => 4
    case Below => 5
  }

  /** After an operator ending at `q`, one space and a plain value running
      to the end of the text: `\s*` takes the space, `(.+)` the whole value. */
  lemma PlainValueAfter(s: string, q: nat, v: string)
    requires IsPlainValue(v) && q + 1 + |v| == |s| && s[q] == ' ' && s[q + 1..] == v
    ensures SpaceEnd(s, q) == q + 1
    ensures ValueStart(s, q, q + 1) == Some(q + 1)
    ensures LineEnd(s, q + 1) == |s|
  {
    assert s[q + 1] == v[0];
    assert SpaceEnd(s, q + 1) == q + 1;
    forall k | q + 1 <= k < |s|
      ensures !IsLineTerminator(s[k])
    {
      assert s[k] == v[k - q - 1];
    }
    LineEndOfLine(s, q + 1);
  }

  /** The first operator tried, found at `p` and followed by one space and
      a value running to the end of the text, gives that value. */
  lemma MatchFirstOp(s: string, w: string, p: nat, ops: seq<Op>, v: string)
    requires ops != [] && p + |OpText(ops[0])| + 1 + |v| == |s| && MatchAt(s, OpText(ops[0]), p)
    requires s[p + |OpText(ops[0])|] == ' ' && s[p + |OpText(ops[0])| + 1..] == v && IsPlainValue(v)
    ensures MatchOps(s, w, p, ops) == Some(Condition(w, ops[0], v))
  {
    var q := p + |OpText(ops[0])|;
    PlainValueAfter(s, q, v);
    assert s[q + 1..LineEnd(s, q + 1)] == v;
    hide LineEnd, SpaceEnd, ValueStart, MatchAt;
  }

  /** An operator written at `p` and followed by a space and a plain value
      is found, with that value. */
  lemma MatchWritten(s: string, w: string, p: nat, op: Op, v: string)
    requires IsPlainValue(v) && p + |OpText(op)| + 1 + |v| == |s|
    requires s[p..p + |OpText(op)|] == OpText(op) && s[p + |OpText(op)|] == ' '
    requires s[p + |OpText(op)| + 1..] == v
    ensures MatchOps(s, w, p, Operators) == Some(Condition(w, op, v))
  {
    hide OpText;
    assert MatchAt(s, OpText(op), p);
    EarlierOpsFail(s, w, p, op);
    var rest := Operators[OpIndex(op)..];
    assert rest != [] && rest[0] == op;
    hide Operators, OpIndex, MatchOps;
    MatchFirstOp(s, w, p, rest, v);
  }

  /** A condition written as `field op value`, with a word for the field and
      a value that starts with neither white space nor a line break, is read
      back as itself. */
  lemma ParseWritten(c: Condition)
    requires IsWord(c.field) && IsPlainValue(c.value)
    ensures Parse(Written(c)) == Some(c)
  {
    var s := Written(c);
    var w := c.field;
    var t := OpText(c.op);
    var p := |w| + 1;
    assert s[..|w|] == w && s[|w|] == ' ' && s[p..p + |t|] == t && s[p + |t|] == ' ' && s[p + |t| + 1..] == c.value;
    assert forall k | 0 <= k < |w| :: s[k] == w[k];
    hide Written;
    WordEndOfWord(s, 0, |w|);
    assert s[0..|w|] == w;
    assert s[p] == t[0];
    assert SpaceEnd(s, p) == p;
    assert SpaceEnd(s, |w|) == p;
    MatchWritten(s, w, p, c.op, c.value);
  }

  // ---------------------------------------------------------------------
  // Visibility of a question
  // ---------------------------------------------------------------------

  const ClarityOn := "clarity_phase === true"
  const ImplementationOn := "implementation_phase === true"
  const AdoptionOn := "adoption_phase === true"
  const IntegrationsYes := "integrations === 'Yes'"
  const MultiWarehouseYes := "multi_warehouse === 'Yes'"
  const InventorySelected := "modules.includes('Inventory')"

  /** Some selected module's name contains `inventory`, in any case. */
  predicate SelectsInventory(es: seq<ModuleEntry>)
  {
    exists i | 0 <= i < |Selected(es)| :: Contains(Lower(Selected(es)[i]), "inventory")
  }

  /** `isQuestionVisible` for a question whose `conditional` is `c` (`""`
      when it has none). */
  predicate Visible(r: Responses, c: string)
  {
    if c == "" then true
    else if c == ClarityOn then r.clarityPhase
    else if c == ImplementationOn then r.implementationPhase
    else if c == AdoptionOn then r.adoptionPhase
    else if c == IntegrationsYes then r.integrations == "Yes"
    else if c == MultiWarehouseYes then r.multiWarehouse == "Yes"
    else if c == InventorySelected then SelectsInventory(r.moduleHours)
    else
      var m := Parse(c);
      m.None? || Compare(FieldValue(r, m.value.field), m.value.op, Unquoted(m.value.value))
  }

  /** The inventory condition shows the question exactly when some module
      with positive hours has `inventory` in its name, in any case. */
  lemma InventoryCondition(r: Responses)
    requires DistinctKeys(r.moduleHours)
    ensures Visible(r, InventorySelected)
            <==> exists m :: Lookup(r.moduleHours, m).Some? && Lookup(r.moduleHours, m).value > 0
                             && Contains(Lower(m), "inventory")
  {
    var es := r.moduleHours;
    assert Visible(r, InventorySelected) == SelectsInventory(es);
    if SelectsInventory(es) {
      var i :| 0 <= i < |Selected(es)| && Contains(Lower(Selected(es)[i]), "inventory");
      SelectedMembers(es, Selected(es)[i]);
    }
    if exists m :: Lookup(es, m).Some? && Lookup(es, m).value > 0 && Contains(Lower(m), "inventory") {
      var m :| Lookup(es, m).Some? && Lookup(es, m).value > 0 && Contains(Lower(m), "inventory");
      SelectedMembers(es, m);
      var i :| 0 <= i < |Selected(es)| && Selected(es)[i] == m;
    }
  }

  /** A condition the expression cannot read shows the question. */
  lemma UnreadableShows(r: Responses, c: string)
    requires c != ClarityOn && c != ImplementationOn && c != AdoptionOn && c != IntegrationsYes
    requires c != MultiWarehouseYes && c != InventorySelected
    requires Parse(c).None?
    ensures Visible(r, c)
  {
  }

  /** A written condition on any field other than the ones the hook knows by
      heart is evaluated as the expression reads it. */
  lemma WrittenEvaluates(r: Responses, c: Condition)
    requires IsWord(c.field) && IsPlainValue(c.value)
    requires Written(c) != ClarityOn && Written(c) != ImplementationOn && Written(c) != AdoptionOn
    requires Written(c) != IntegrationsYes && Written(c) != MultiWarehouseYes && Written(c) != InventorySelected
    ensures Visible(r, Written(c)) == Compare(FieldValue(r, c.field), c.op, Unquoted(c.value))
  {
    ParseWritten(c);
  }

  /** The conditions the hook knows by heart read, through the expression,
      as the comparison each of them stands for. */
  lemma ClarityOnParses()
    ensures Parse(ClarityOn) == Some(Condition("clarity_phase", StrictEq, "true"))
  {
    var c := Condition("clarity_phase", StrictEq, "true");
    assert Written(c) == ClarityOn;
    ParseWritten(c);
  }

  lemma ImplementationOnParses()
    ensures Parse(ImplementationOn) == Some(Condition("implementation_phase", StrictEq, "true"))
  {
    var c := Condition("implementation_phase", StrictEq, "true");
    assert Written(c) == ImplementationOn;
    ParseWritten(c);
  }

  lemma AdoptionOnParses()
    ensures Parse(AdoptionOn) == Some(Condition("adoption_phase", StrictEq, "true"))
  {
    var c := Condition("adoption_phase", StrictEq, "true");
    assert Written(c) == AdoptionOn;
    ParseWritten(c);
  }

  lemma IntegrationsYesParses()
    ensures Parse(IntegrationsYes) == Some(Condition("integrations", StrictEq, "'Yes'"))
  {
    var c := Condition("integrations", StrictEq, "'Yes'");
    assert Written(c) == IntegrationsYes;
    ParseWritten(c);
  }

  lemma MultiWarehouseYesParses()
    ensures Parse(MultiWarehouseYes) == Some(Condition("multi_warehouse", StrictEq, "'Yes'"))
  {
    var c := Condition("multi_warehouse", StrictEq, "'Yes'");
    assert Written(c) == MultiWarehouseYes;
    ParseWritten(c);
  }

  lemma UnquotedYes()
    ensures Unquoted("'Yes'") == "Yes"
  {
    assert "'Yes'"[..4] == "'Yes";
    assert "'Yes"[..3] == "'Ye";
    assert "'Ye"[..2] == "'Y";
    assert "'Y"[..1] == "'";
    assert "'"[..0] == "";
  }

  /** What the hook decides for those conditions is what the comparison they
      read as gives. */
  lemma KnownConditionsAgree(r: Responses)
    ensures Visible(r, ClarityOn) == Compare(Bool(r.clarityPhase), StrictEq, "true")
    ensures Visible(r, ImplementationOn) == Compare(Bool(r.implementationPhase), StrictEq, "true")
    ensures Visible(r, AdoptionOn) == Compare(Bool(r.adoptionPhase), StrictEq, "true")
    ensures Visible(r, IntegrationsYes) == Compare(Str(r.integrations), StrictEq, Unquoted("'Yes'"))
    ensures Visible(r, MultiWarehouseYes) == Compare(Str(r.multiWarehouse), StrictEq, Unquoted("'Yes'"))
  {
    UnquotedYes();
  }
}
