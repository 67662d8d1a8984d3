/** The RCA gate: what a submitted RCA may look like once the request model accepted
    it, and the validator that guards CLOSED. */
module RcaValidator {
  import opened Types
  import opened Text

  datatype Verdict = Passed | RcaRequired | RcaIncomplete(missing: seq<string>)

  const REQUIRED_FIELDS: seq<string> := ["root_cause_category", "fix_applied", "prevention"]
  const START_FIELD := "rca_start_time"
  const END_FIELD := "rca_end_time"
  const BAD_RANGE := "rca_end_time must be >= rca_start_time"

  function TextField(rca: Rca, field: string): Option<string> {
    if field == REQUIRED_FIELDS[0] then rca.rootCause
    else if field == REQUIRED_FIELDS[1] then rca.fixApplied
    else if field == REQUIRED_FIELDS[2] then rca.prevention
    else None
  }

  predicate BlankField(rca: Rca, field: string) {
    TextField(rca, field).None? || Blank(TextField(rca, field).value)
  }

  predicate Backwards(rca: Rca) {
    rca.startTime.Some? && rca.endTime.Some? && rca.endTime.value < rca.startTime.value
  }

  /** What it takes to close: three texts that are not blank, and an ordered time range. */
  predicate Complete(rca: Rca) {
    && (forall f :: f in REQUIRED_FIELDS ==> !BlankField(rca, f))
    && rca.startTime.Some? && rca.endTime.Some? && rca.startTime.value <= rca.endTime.value
  }

  function BlankAmong(rca: Rca, fields: seq<string>): seq<string> {
    if fields == [] then []
    else
      var last := fields[|fields| - 1];
      BlankAmong(rca, fields[..|fields| - 1]) + (if BlankField(rca, last) then [last] else [])
  }

  function MissingFields(rca: Rca): seq<string> {
    BlankAmong(rca, REQUIRED_FIELDS)
    + (if rca.startTime.None? then [START_FIELD] else [])
    + (if rca.endTime.None? then [END_FIELD] else [])
  }

  /** The verdict `validate` raises or returns with. A backwards range is reported alone. */
  function Judge(rca: Option<Rca>): Verdict {
    if rca.None? then RcaRequired
    else if Backwards(rca.value) then RcaIncomplete([BAD_RANGE])
    else if MissingFields(rca.value) != [] then RcaIncomplete(MissingFields(rca.value))
    else Passed
  }

  lemma {:induction false} BlankAmongMembers(rca: Rca, fields: seq<string>, f: string)
    ensures f in BlankAmong(rca, fields) <==> f in fields && BlankField(rca, f)
  {
    if fields != [] {
      var front := fields[..|fields| - 1];
      BlankAmongMembers(rca, front, f);
      assert fields == front + [fields[|fields| - 1]];
    }
  }

  /** The gate opens exactly for a present and complete RCA, and a refusal that is not
      about the time order names exactly the absent or blank fields. */
  lemma JudgeIsTheGate(rca: Option<Rca>)
    ensures Judge(rca).Passed? <==> rca.Some? && Complete(rca.value)
    ensures Judge(rca).RcaRequired? <==> rca.None?
    ensures rca.Some? && !Backwards(rca.value) ==>
      forall f :: f in MissingFields(rca.value) <==>
        || (f in REQUIRED_FIELDS && BlankField(rca.value, f))
        || (f == START_FIELD && rca.value.startTime.None?)
        || (f == END_FIELD && rca.value.endTime.None?)
  {
    if rca.Some? {
      forall f ensures f in BlankAmong(rca.value, REQUIRED_FIELDS)
                       <==> f in REQUIRED_FIELDS && BlankField(rca.value, f) {
        BlankAmongMembers(rca.value, REQUIRED_FIELDS, f);
      }
      var missing := MissingFields(rca.value);
      if missing != [] {
        assert missing[0] in missing;
      } else {
        assert forall f :: f in BlankAmong(rca.value, REQUIRED_FIELDS) ==> f in missing;
      }
    }
  }

  predicate Filled(text: Option<string>) {
    text.Some? && !Blank(text.value)
  }

  lemma RequiredTexts(rca: Rca)
    ensures BlankAmong(rca, REQUIRED_FIELDS)
      == (if Filled(rca.rootCause) then [] else ["root_cause_category"])
       + (if Filled(rca.fixApplied) then [] else ["fix_applied"])
       + (if Filled(rca.prevention) then [] else ["prevention"])
    ensures (forall f :: f in REQUIRED_FIELDS ==> !BlankField(rca, f))
      <==> Filled(rca.rootCause) && Filled(rca.fixApplied) && Filled(rca.prevention)
  {
    var one, two := ["root_cause_category"], ["root_cause_category", "fix_applied"];
    assert REQUIRED_FIELDS[..2] == two && two[..1] == one && one[..0] == [];
    assert BlankField(rca, "root_cause_category") <==> !Filled(rca.rootCause);
    assert BlankField(rca, "fix_applied") <==> !Filled(rca.fixApplied);
    assert BlankField(rca, "prevention") <==> !Filled(rca.prevention);
    assert BlankAmong(rca, one) == if Filled(rca.rootCause) then [] else one;
    assert BlankAmong(rca, two) == BlankAmong(rca, one) + if Filled(rca.fixApplied) then [] else ["fix_applied"];
  }

  /** The verdict on the fields themselves: a backwards time range is reported alone, and
      otherwise the absent or blank fields are named, in this order; nothing else is refused. */
  lemma JudgeNamesTheFields(rca: Rca)
    ensures var verdict := Judge(Some(rca));
      if rca.startTime.Some? && rca.endTime.Some? && rca.endTime.value < rca.startTime.value then
        verdict == RcaIncomplete(["rca_end_time must be >= rca_start_time"])
      else
        var missing := (if Filled(rca.rootCause) then [] else ["root_cause_category"])
          + (if Filled(rca.fixApplied) then [] else ["fix_applied"])
          + (if Filled(rca.prevention) then [] else ["prevention"])
          + (if rca.startTime.Some? then [] else ["rca_start_time"])
          + (if rca.endTime.Some? then [] else ["rca_end_time"]);
        verdict == if missing == [] then Passed else RcaIncomplete(missing)
    ensures Complete(rca) <==>
      && Filled(rca.rootCause) && Filled(rca.fixApplied) && Filled(rca.prevention)
      && rca.startTime.Some? && rca.endTime.Some? && rca.startTime.value <= rca.endTime.value
  {
    RequiredTexts(rca);
  }

  /** `validate`, as the loop it is. */
  method Validate(rca: Option<Rca>) returns (verdict: Verdict)
    ensures verdict == Judge(rca)
  {
    if rca.None? {
      return RcaRequired;
    }
    var missing: seq<string> := [];
    var i := 0;
    while i < |REQUIRED_FIELDS|
      invariant 0 <= i <= |REQUIRED_FIELDS|
      invariant missing == BlankAmong(rca.value, REQUIRED_FIELDS[..i])
    {
      assert REQUIRED_FIELDS[..i + 1][..i] == REQUIRED_FIELDS[..i];
      var field := REQUIRED_FIELDS[i];
      var value := TextField(rca.value, field);
      ghost var a, b := 0, 0;
      if value.Some? {
        a, b := StripCuts(value.value);
      }
      if value.None? || Strip(value.value) == "" {
        missing := missing + [field];
      }
      i := i + 1;
    }
    assert REQUIRED_FIELDS[..i] == REQUIRED_FIELDS;
    var start, end := rca.value.startTime, rca.value.endTime;
    if start.None? {
      missing := missing + [START_FIELD];
    }
    if end.None? {
      missing := missing + [END_FIELD];
    }
    if start.Some? && end.Some? && end.value < start.value {
      return RcaIncomplete([BAD_RANGE]);
    }
    if missing != [] {
      return RcaIncomplete(missing);
    }
    return Passed;
  }

  // ---------- What a request body must pass before it is stored ----------

  datatype RootCauseCategory =
    Infrastructure | Network | CodeDefect | Config | Capacity | Dependency | HumanError | Security | Unknown

  function CategoryName(c: RootCauseCategory): string {
    match c
    case Infrastructure => "INFRASTRUCTURE"
    case Network => "NETWORK"
    case CodeDefect => "CODE_DEFECT"
    case Config => "CONFIG"
    case Capacity => "CAPACITY"
    case Dependency => "DEPENDENCY"
    case HumanError => "HUMAN_ERROR"
    case Security => "SECURITY"
    case Unknown => "UNKNOWN"
  }

  /** The category a request's text stands for; any other text is refused before the handler. */
  function CategoryOf(text: string): Option<RootCauseCategory> {
    match text
    case "INFRASTRUCTURE" => Some(Infrastructure)
    case "NETWORK" => Some(Network)
    case "CODE_DEFECT" => Some(CodeDefect)
    case "CONFIG" => Some(Config)
    case "CAPACITY" => Some(Capacity)
    case "DEPENDENCY" => Some(Dependency)
    case "HUMAN_ERROR" => Some(HumanError)
    case "SECURITY" => Some(Security)
    case "UNKNOWN" => Some(Unknown)
    case _ => None
  }

  /** A category is stored under the very text it came as; distinct ones stay distinct. */
  lemma CategoryRoundTrip(text: string, c: RootCauseCategory)
    ensures CategoryOf(text) == Some(c) <==> CategoryName(c) == text
  {
    var name := CategoryName(c);
    if text == name {
      assert CategoryOf(text) == Some(c);
    }
  }

  /** A request body as it arrives. */
  datatype RcaBody = RcaBody(
    category: RootCauseCategory, fixApplied: string, prevention: string, startTime: int, endTime: int)

  /** The field validator of the request model: the stripped text, or a refusal. */
  function NotBlank(v: string): Option<string> {
    if Strip(v) == "" then None else Some(Strip(v))
  }

  /** The row `submit_rca` hands to `upsert_rca`, or `None` where the request is refused
      (by the request model or by the handler's own time check). */
  function AcceptedRca(body: RcaBody): Option<Rca> {
    if NotBlank(body.fixApplied).None? || NotBlank(body.prevention).None? then None
    else if body.endTime < body.startTime then None
    else Some(Rca(Some(CategoryName(body.category)), NotBlank(body.fixApplied), NotBlank(body.prevention),
                  Some(body.startTime), Some(body.endTime)))
  }

  lemma CategoryNameHasNoBlank(c: RootCauseCategory)
    ensures !Blank(CategoryName(c))
  {
    assert !IsSpace(CategoryName(c)[0]);
  }

  lemma StrippedTextIsNotBlank(v: string)
    requires Strip(v) != ""
    ensures !Blank(Strip(v))
  {
    var a, b := StripCuts(v);
    assert !IsSpace(Strip(v)[0]);
  }

  /** Everything `submit_rca` lets through is an RCA the validator passes, and it lets
      through exactly the bodies with two texts that are not blank and an ordered range. */
  lemma AcceptedRcaPasses(body: RcaBody)
    ensures AcceptedRca(body).Some? <==>
      !Blank(body.fixApplied) && !Blank(body.prevention) && body.startTime <= body.endTime
    ensures AcceptedRca(body).Some? ==> Complete(AcceptedRca(body).value) && Judge(AcceptedRca(body)).Passed?
  {
    var a, b := StripCuts(body.fixApplied);
    var c, d := StripCuts(body.prevention);
    if AcceptedRca(body).Some? {
      var rca := AcceptedRca(body).value;
      CategoryNameHasNoBlank(body.category);
      StrippedTextIsNotBlank(body.fixApplied);
      StrippedTextIsNotBlank(body.prevention);
      forall f | f in REQUIRED_FIELDS ensures !BlankField(rca, f) {
      }
      JudgeIsTheGate(Some(rca));
    }
  }

  /** The text with the blanks at both ends cut off, and something left. */
  ghost predicate TrimmedFrom(text: Option<string>, s: string) {
    && text.Some? && text.value != "" && Trimmed(text.value)
    && exists a, b :: 0 <= a <= b <= |s| && text.value == s[a..b] && Blank(s[..a]) && Blank(s[b..])
  }

  /** The RCA holds the body: category, each text in its own field, and the times. */
  ghost predicate StoredFrom(rca: Rca, body: RcaBody) {
    && rca.rootCause == Some(CategoryName(body.category))
    && TrimmedFrom(rca.fixApplied, body.fixApplied) && TrimmedFrom(rca.prevention, body.prevention)
    && rca.startTime == Some(body.startTime) && rca.endTime == Some(body.endTime)
  }

  /** What is stored of an accepted body is that body, with its texts trimmed. */
  lemma AcceptedRcaIsTheBody(body: RcaBody)
    requires AcceptedRca(body).Some?
    ensures StoredFrom(AcceptedRca(body).value, body)
  {
    var a, b := StripCuts(body.fixApplied);
    var c, d := StripCuts(body.prevention);
    assert Strip(body.fixApplied) == body.fixApplied[a..b] && Strip(body.prevention) == body.prevention[c..d];
  }
}
