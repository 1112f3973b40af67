/** Validation of the classifier's label (`decide_search_path`): the raw completion is
    stripped and upper-cased, then accepted only if it is one of a fixed list of
    categories; anything else becomes "OFF-TOPIC". The current handler accepts six
    labels, the older one five (no "MORE"). */
module Labels {
  import opened Types
  import opened Text

  datatype Route = Reset | InsuranceService | InsuranceProduct | ContinueConversation | More | OffTopic {
    /** The label as the classifier writes it and as it is persisted. */
    function Name(): string {
      match this
      case Reset => "RESET"
      case InsuranceService => "INSURANCE_SERVICE"
      case InsuranceProduct => "INSURANCE_PRODUCT"
      case ContinueConversation => "CONTINUE CONVERSATION"
      case More => "MORE"
      case OffTopic => "OFF-TOPIC"
    }
  }

  /** `valid_categories` of the current handler. */
  const Categories: seq<Route> := [Reset, InsuranceService, InsuranceProduct, ContinueConversation, More, OffTopic]

  /** `valid_categories` of the older handler. */
  const LegacyCategories: seq<Route> := [Reset, InsuranceService, InsuranceProduct, ContinueConversation, OffTopic]

  /** `content.strip().upper()`. */
  function Normalize(raw: string): string {
    Upper(Strip(raw))
  }

  /** The category of `cats` named `s`, if any. */
  function Lookup(cats: seq<Route>, s: string): (r: Option<Route>)
    ensures r.Some? ==> r.value in cats && r.value.Name() == s
    ensures r.None? ==> forall c :: c in cats ==> c.Name() != s
  {
    if cats == [] then None
    else if cats[0].Name() == s then Some(cats[0])
    else Lookup(cats[1..], s)
  }

  /** The validation step itself: the category of `cats` named `s`, or "OFF-TOPIC". */
  function Validate(cats: seq<Route>, s: string): (r: Route)
    ensures r in cats || r == OffTopic
    ensures Lookup(cats, s).Some? ==> r.Name() == s
    ensures Lookup(cats, s).None? ==> r == OffTopic
  {
    match Lookup(cats, s)
    case Some(c) => c
    case None => OffTopic
  }

  /** Validation in `decide_search_path` of the current handler. */
  function DecideSearchPath(raw: string): Route {
    Validate(Categories, Normalize(raw))
  }

  /** Validation in `decide_search_path` of the older handler. */
  function LegacyDecideSearchPath(raw: string): Route {
    Validate(LegacyCategories, Normalize(raw))
  }

  /** The result is always one of the six categories; it is the category the
      normalised text names when there is one, and "OFF-TOPIC" otherwise. */
  lemma DecideSearchPathSound(raw: string)
    ensures DecideSearchPath(raw) in Categories
    ensures forall c :: c in Categories && c.Name() == Normalize(raw) ==> DecideSearchPath(raw) == c
    ensures (forall c :: c in Categories ==> c.Name() != Normalize(raw)) ==> DecideSearchPath(raw) == OffTopic
  {
    var r := DecideSearchPath(raw);
    forall c | c in Categories && c.Name() == Normalize(raw) ensures r == c {
      NameInjective(r, c);
    }
  }

  /** The older handler's result is one of its five categories, never "MORE". */
  lemma LegacyDecideSearchPathSound(raw: string)
    ensures LegacyDecideSearchPath(raw) in LegacyCategories
    ensures LegacyDecideSearchPath(raw) != More
    ensures forall c :: c in LegacyCategories && c.Name() == Normalize(raw) ==> LegacyDecideSearchPath(raw) == c
  {
    var r := LegacyDecideSearchPath(raw);
    forall c | c in LegacyCategories && c.Name() == Normalize(raw) ensures r == c {
      NameInjective(r, c);
    }
  }

  lemma NameInjective(a: Route, b: Route)
    ensures a.Name() == b.Name() ==> a == b
  {
  }

  predicate NormalChar(ch: char) {
    ch == '_' || ch == ' ' || ch == '-' || 'A' <= ch <= 'Z'
  }

  lemma UpperOfNormal(s: string)
    requires s != [] && s[0] != ' ' && s[|s| - 1] != ' '
    requires forall i :: 0 <= i < |s| ==> NormalChar(s[i])
    ensures Upper(s) == s
    ensures !IsSpace(s[0]) && !IsSpace(s[|s| - 1])
  {
    assert forall i :: 0 <= i < |s| ==> Upper(s)[i] == s[i];
  }

  /** Every label name is already upper case and has no surrounding whitespace. */
  lemma NameIsNormal(c: Route)
    ensures Upper(c.Name()) == c.Name()
    ensures !IsSpace(c.Name()[0]) && !IsSpace(c.Name()[|c.Name()| - 1])
  {
    var n := c.Name();
    assert forall i :: 0 <= i < |n| ==> NormalChar(n[i]);
    UpperOfNormal(n);
  }

  /** Case and surrounding whitespace do not matter: any text that upper-cases to a
      label's name, padded with whitespace, is classified as that label. */
  lemma {:induction false} DecideSearchPathVariant(pre: string, core: string, post: string, c: Route)
    requires AllSpace(pre) && AllSpace(post)
    requires Upper(core) == c.Name()
    ensures DecideSearchPath(pre + core + post) == c
    ensures c != More ==> LegacyDecideSearchPath(pre + core + post) == c
  {
    NameIsNormal(c);
    var n := c.Name();
    assert UpperChar(core[0]) == n[0];
    assert UpperChar(core[|core| - 1]) == n[|n| - 1];
    StripPadded(pre, core, post);
    assert Normalize(pre + core + post) == n;
    assert c in Categories;
    NameInjective(DecideSearchPath(pre + core + post), c);
    if c != More {
      assert c in LegacyCategories;
      NameInjective(LegacyDecideSearchPath(pre + core + post), c);
    }
  }

  /** Validation is the identity on a valid label. */
  lemma DecideSearchPathOfName(c: Route)
    ensures DecideSearchPath(c.Name()) == c
    ensures c != More ==> LegacyDecideSearchPath(c.Name()) == c
  {
    NameIsNormal(c);
    assert [] + c.Name() + [] == c.Name();
    DecideSearchPathVariant([], c.Name(), [], c);
  }

  /** The two handlers validate alike except that the older one demotes "MORE". */
  lemma LegacyAgreesExceptMore(raw: string)
    ensures LegacyDecideSearchPath(raw) == if DecideSearchPath(raw) == More then OffTopic else DecideSearchPath(raw)
  {
    ValidateAgrees(Normalize(raw));
  }

  /** The two validation steps on the same normalised text. */
  lemma ValidateAgrees(s: string)
    ensures Validate(LegacyCategories, s) == if Validate(Categories, s) == More then OffTopic else Validate(Categories, s)
  {
    var r := Validate(Categories, s);
    if Lookup(LegacyCategories, s).Some? {
      var c := Lookup(LegacyCategories, s).value;
      assert c in Categories;
      NameInjective(r, c);
    } else if Lookup(Categories, s).Some? {
      var c := Lookup(Categories, s).value;
      assert c !in LegacyCategories;
    }
  }
}
