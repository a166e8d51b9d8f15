/**
 * The scheme explorer: given an applicant's profile, keep the welfare schemes
 * of the catalog whose every present constraint the applicant meets, in
 * catalog order.
 */
module Eligibility {

  import opened Wrappers
  import Text

  /**
   * One catalog record.  `states` is always present; every other constraint
   * is optional, and an absent one constrains nothing.  `name` stands for the
   * descriptive fields, which the filter never looks at.
   */
  datatype Scheme = Scheme(
    name: string,
    states: seq<string>,
    gender: Option<string>,
    minAge: Option<int>,
    maxAge: Option<int>,
    incomeLimit: Option<int>,
    maritalStatus: Option<string>,
    educationLevel: Option<string>,
    pregnantRequired: Option<bool>,
    religion: Option<string>)

  /** The applicant's answers, already parsed; `religion` is already stripped. */
  datatype Profile = Profile(
    age: int,
    income: int,
    gender: string,
    state: string,
    maritalStatus: string,
    educationLevel: string,
    religion: string,
    pregnant: bool)

  /** The state list that admits every state. */
  const AllStates: seq<string> := ["All"]

  /** The wildcard value of marital status, education level and religion. */
  const Any: string := "any"

  /** The constraints, in the order the explorer tests them. */
  datatype Rule =
    | State | Gender | MinAge | MaxAge | IncomeLimit
    | MaritalStatus | EducationLevel | Pregnancy | Religion

  /**
   * Whether scheme `s` actually constrains `rule`: the state list is not
   * `["All"]`, or the field is present and, for the three fields with a
   * wildcard, not "any"; pregnancy constrains only when it is required.
   */
  predicate Constrains(rule: Rule, s: Scheme)
  {
    match rule
    case State => s.states != AllStates
    case Gender => s.gender.Some?
    case MinAge => s.minAge.Some?
    case MaxAge => s.maxAge.Some?
    case IncomeLimit => s.incomeLimit.Some?
    case MaritalStatus => s.maritalStatus.Some? && s.maritalStatus.value != Any
    case EducationLevel => s.educationLevel.Some? && s.educationLevel.value != Any
    case Pregnancy => s.pregnantRequired == Some(true)
    case Religion => s.religion.Some? && s.religion.value != Any
  }

  /** Whether one constraint of scheme `s` lets the applicant `p` through. */
  predicate Passes(rule: Rule, s: Scheme, p: Profile)
    ensures !Constrains(rule, s) ==> Passes(rule, s, p)
  {
    match rule
    case State => s.states == AllStates || p.state in s.states
    case Gender => s.gender.None? || s.gender.value == p.gender
    case MinAge => s.minAge.None? || p.age >= s.minAge.value
    case MaxAge => s.maxAge.None? || p.age <= s.maxAge.value
    case IncomeLimit => s.incomeLimit.None? || p.income <= s.incomeLimit.value
    case MaritalStatus =>
      s.maritalStatus.None? || s.maritalStatus.value == Any || s.maritalStatus.value == p.maritalStatus
    case EducationLevel =>
      s.educationLevel.None? || s.educationLevel.value == Any || s.educationLevel.value == p.educationLevel
    case Pregnancy => s.pregnantRequired.None? || !s.pregnantRequired.value || p.pregnant
    case Religion =>
      s.religion.None? || s.religion.value == Any || Text.Lower(s.religion.value) == Text.Lower(p.religion)
  }

  /** The applicant is eligible for a scheme when no constraint of it fails. */
  ghost predicate Eligible(s: Scheme, p: Profile)
  {
    forall rule: Rule :: Passes(rule, s, p)
  }

  /** The schemes of `catalog` the applicant is eligible for, in catalog order. */
  ghost function Filter(catalog: seq<Scheme>, p: Profile): (r: seq<Scheme>)
    ensures |r| <= |catalog|
    ensures forall x :: x in r ==> x in catalog && Eligible(x, p)
  {
    if catalog == [] then []
    else (if Eligible(catalog[0], p) then [catalog[0]] else []) + Filter(catalog[1..], p)
  }

  /** `a` is obtained from `b` by deleting elements, keeping the order of the rest. */
  ghost predicate IsSubsequence<T>(a: seq<T>, b: seq<T>)
    decreases |b|
  {
    a == [] ||
    (b != [] &&
     ((a[0] == b[0] && IsSubsequence(a[1..], b[1..])) || IsSubsequence(a, b[1..])))
  }

  /**
   * The explorer page.  A GET (no profile) shows no scheme; a POST walks the
   * catalog and skips a scheme at the first constraint it fails.
   */
  method Explore(catalog: seq<Scheme>, request: Option<Profile>) returns (eligible: seq<Scheme>)
    ensures request.None? ==> eligible == []
    ensures request.Some? ==> eligible == Filter(catalog, request.value)
  {
    eligible := [];
    if request.None? {
      return;
    }
    var p := request.value;
    for i := 0 to |catalog|
      invariant eligible == Filter(catalog[..i], p)
    {
      var scheme := catalog[i];
      assert catalog[..i + 1] == catalog[..i] + [scheme];
      FilterAppend(catalog[..i], [scheme], p);
      if !Passes(State, scheme, p) { continue; }
      if !Passes(Gender, scheme, p) { continue; }
      if !Passes(MinAge, scheme, p) { continue; }
      if !Passes(MaxAge, scheme, p) { continue; }
      if !Passes(IncomeLimit, scheme, p) { continue; }
      if !Passes(MaritalStatus, scheme, p) { continue; }
      if !Passes(EducationLevel, scheme, p) { continue; }
      if !Passes(Pregnancy, scheme, p) { continue; }
      if !Passes(Religion, scheme, p) { continue; }
      EligibleWhenAllPass(scheme, p);
      eligible := eligible + [scheme];
    }
    assert catalog[..|catalog|] == catalog;
  }

  /** Passing the nine tests one after another is being eligible. */
  lemma EligibleWhenAllPass(s: Scheme, p: Profile)
    ensures Eligible(s, p) <==>
      Passes(State, s, p) && Passes(Gender, s, p) && Passes(MinAge, s, p) &&
      Passes(MaxAge, s, p) && Passes(IncomeLimit, s, p) && Passes(MaritalStatus, s, p) &&
      Passes(EducationLevel, s, p) && Passes(Pregnancy, s, p) && Passes(Religion, s, p)
  {
  }

  /** Filtering a concatenation filters each part. */
  lemma {:induction false} FilterAppend(a: seq<Scheme>, b: seq<Scheme>, p: Profile)
    ensures Filter(a + b, p) == Filter(a, p) + Filter(b, p)
  {
    if a == [] {
      assert a + b == b;
    } else {
      assert (a + b)[0] == a[0] && (a + b)[1..] == a[1..] + b;
      FilterAppend(a[1..], b, p);
    }
  }

  /** A scheme is shown exactly when it is in the catalog and the applicant is eligible. */
  lemma {:induction false} FilterMembership(catalog: seq<Scheme>, p: Profile, x: Scheme)
    ensures x in Filter(catalog, p) <==> x in catalog && Eligible(x, p)
  {
    if catalog != [] {
      FilterMembership(catalog[1..], p, x);
      assert x in catalog <==> x == catalog[0] || x in catalog[1..];
    }
  }

  /** The result keeps catalog order: it is a subsequence of the catalog. */
  lemma {:induction false} FilterIsSubsequence(catalog: seq<Scheme>, p: Profile)
    ensures IsSubsequence(Filter(catalog, p), catalog)
  {
    if catalog != [] {
      FilterIsSubsequence(catalog[1..], p);
      var rest := Filter(catalog[1..], p);
      if Eligible(catalog[0], p) {
        assert Filter(catalog, p) == [catalog[0]] + rest;
        assert ([catalog[0]] + rest)[1..] == rest;
      } else {
        assert Filter(catalog, p) == rest;
        SubsequenceOfTail(rest, catalog);
      }
    }
  }

  /** A subsequence of the tail of `b` is a subsequence of `b`. */
  lemma SubsequenceOfTail<T>(a: seq<T>, b: seq<T>)
    requires b != [] && IsSubsequence(a, b[1..])
    ensures IsSubsequence(a, b)
  {
  }

  /** A catalog of eligible schemes passes the filter unchanged, and only such a catalog does. */
  lemma {:induction false} FilterKeepsAllEligible(catalog: seq<Scheme>, p: Profile)
    ensures Filter(catalog, p) == catalog <==> forall x :: x in catalog ==> Eligible(x, p)
  {
    if catalog != [] {
      FilterKeepsAllEligible(catalog[1..], p);
      if !Eligible(catalog[0], p) {
        assert |Filter(catalog, p)| < |catalog|;
      }
    }
  }

  /** Filtering the explorer's own result again with the same profile changes nothing. */
  lemma FilterIdempotent(catalog: seq<Scheme>, p: Profile)
    ensures Filter(Filter(catalog, p), p) == Filter(catalog, p)
  {
    FilterKeepsAllEligible(Filter(catalog, p), p);
  }

  /** A single failing constraint keeps the scheme out of every result. */
  lemma SingleViolationExcludes(catalog: seq<Scheme>, p: Profile, s: Scheme, rule: Rule)
    requires !Passes(rule, s, p)
    ensures s !in Filter(catalog, p)
  {
  }

  /** A scheme open to all states passes the state test whatever the applicant's state. */
  lemma AllStatesAdmitEveryState(s: Scheme, p: Profile)
    requires s.states == AllStates
    ensures Passes(State, s, p)
  {
  }

  /** A scheme open to all states with no other constraint is shown to every applicant. */
  lemma UnconstrainedSchemeIsShown(catalog: seq<Scheme>, p: Profile, s: Scheme)
    requires s in catalog && s.states == AllStates
    requires s.gender.None? && s.minAge.None? && s.maxAge.None? && s.incomeLimit.None?
    requires s.maritalStatus.None? && s.educationLevel.None?
    requires s.pregnantRequired.None? && s.religion.None?
    ensures s in Filter(catalog, p)
  {
    EligibleWhenAllPass(s, p);
    FilterMembership(catalog, p, s);
  }

  /** Both age bounds and the income limit admit the boundary value itself. */
  lemma BoundsAreInclusive(s: Scheme, p: Profile)
    ensures s.minAge == Some(p.age) ==> Passes(MinAge, s, p)
    ensures s.maxAge == Some(p.age) ==> Passes(MaxAge, s, p)
    ensures s.incomeLimit == Some(p.income) ==> Passes(IncomeLimit, s, p)
  {
  }

  /** The wildcard "any" constrains exactly as much as an absent field: not at all. */
  lemma AnyIsNoConstraint(s: Scheme, p: Profile)
    ensures Eligible(s.(maritalStatus := Some(Any)), p) <==> Eligible(s.(maritalStatus := None), p)
    ensures Eligible(s.(educationLevel := Some(Any)), p) <==> Eligible(s.(educationLevel := None), p)
    ensures Eligible(s.(religion := Some(Any)), p) <==> Eligible(s.(religion := None), p)
  {
    assert forall rule: Rule :: Passes(rule, s.(maritalStatus := Some(Any)), p) == Passes(rule, s.(maritalStatus := None), p);
    assert forall rule: Rule :: Passes(rule, s.(educationLevel := Some(Any)), p) == Passes(rule, s.(educationLevel := None), p);
    assert forall rule: Rule :: Passes(rule, s.(religion := Some(Any)), p) == Passes(rule, s.(religion := None), p);
  }

  /** Religion is compared ignoring case: two spellings that fold alike decide alike. */
  lemma ReligionIgnoresCase(s: Scheme, p: Profile, religion: string)
    requires Text.Lower(religion) == Text.Lower(p.religion)
    ensures Eligible(s, p.(religion := religion)) <==> Eligible(s, p)
  {
    assert forall rule: Rule :: Passes(rule, s, p.(religion := religion)) == Passes(rule, s, p);
  }

  /** In particular the applicant's religion may be given in lower case without effect. */
  lemma ReligionLowerCaseProfile(s: Scheme, p: Profile)
    ensures Eligible(s, p.(religion := Text.Lower(p.religion))) <==> Eligible(s, p)
  {
    Text.LowerIdempotent(p.religion);
    ReligionIgnoresCase(s, p, Text.Lower(p.religion));
  }

  /** Gender is compared exactly: "Female" does not meet a scheme for "female". */
  lemma GenderIsCaseSensitive(s: Scheme, p: Profile)
    requires s.gender == Some("female") && p.gender == "Female"
    ensures !Eligible(s, p)
  {
    assert !Passes(Gender, s, p);
  }

  /** Religion "Hindu" in a scheme admits an applicant who wrote "hINDU". */
  lemma ReligionCaseExample(s: Scheme, p: Profile)
    requires s.religion == Some("Hindu") && p.religion == "hINDU"
    ensures Passes(Religion, s, p)
  {
    var a, b := Text.Lower("Hindu"), Text.Lower("hINDU");
    assert forall i :: 0 <= i < 5 ==> a[i] == b[i];
  }

  /** Only the exact value "any" is a wildcard; "Any" is an ordinary religion. */
  lemma CapitalAnyIsNotAWildcard(s: Scheme, p: Profile)
    requires s.religion == Some("Any") && p.religion == ""
    ensures !Eligible(s, p)
  {
    assert Text.Lower("Any") != Text.Lower("");
    assert !Passes(Religion, s, p);
  }

  /** A worked example: a Delhi applicant and two schemes, one open to all states and one for Kerala only. */
  lemma DelhiApplicantExample()
    ensures
      var p := Profile(25, 50000, "female", "Delhi", "single", "graduate", "", false);
      var open := Scheme("support", AllStates, Some("female"), None, Some(30), Some(60000), None, None, None, None);
      var kerala := Scheme("kerala", ["Kerala"], None, None, None, None, None, None, None, None);
      Filter([open, kerala], p) == [open]
  {
    var p := Profile(25, 50000, "female", "Delhi", "single", "graduate", "", false);
    var open := Scheme("support", AllStates, Some("female"), None, Some(30), Some(60000), None, None, None, None);
    var kerala := Scheme("kerala", ["Kerala"], None, None, None, None, None, None, None, None);
    EligibleWhenAllPass(open, p);
    assert !Passes(State, kerala, p);
    assert [open, kerala][1..] == [kerala];
    assert [kerala][1..] == [];
  }
}
