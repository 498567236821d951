/** The selector language of `ElementLocator` (pytest_dsl_ui/core/element_locator.py).
    A DSL selector string is mapped to the Playwright call that builds its locator. Playwright
    itself is not modelled: a `Locator` value records which call is made and with which
    arguments, so two selectors denote the same element query exactly when they give equal
    `Locator` values. */
module ElementLocator {
  import opened Wrappers
  import opened PyStr

  /** The value of a keyword argument parsed from a selector: "true"/"false" in any case become
      booleans, anything else stays text. */
  datatype OptionValue = Flag(b: bool) | Text(s: string)

  /** Keyword arguments (`**kwargs`) handed to a `get_by_*` call. */
  type Options = map<string, OptionValue>

  /** The keyword arguments of `Locator.filter` (absent ones are not passed). */
  datatype FilterOptions = FilterOptions(
    hasText: Option<string>,
    hasNotText: Option<string>,
    has: Option<Locator>,
    hasNot: Option<Locator>)

  /** A Playwright locator, identified by the call that creates it. */
  datatype Locator =
    | PageLocator(selector: string)               // page.locator(selector): CSS, or "xpath=..."
    | ByText(text: string, options: Options)      // page.get_by_text(text, **options)
    | ByRole(role: string, options: Options)      // page.get_by_role(role, **options)
    | ByPlaceholder(placeholder: string)          // page.get_by_placeholder(...)
    | ByLabel(labelText: string)                  // page.get_by_label(...)
    | ByTitle(title: string)                      // page.get_by_title(...)
    | ByAltText(alt: string)                      // page.get_by_alt_text(...)
    | ByTestId(testId: string)                    // page.get_by_test_id(...)
    | Filtered(base: Locator, filter: FilterOptions) // base.filter(**filter)
    | Both(base: Locator, other: Locator)         // base.and_(other)
    | Either(base: Locator, other: Locator)       // base.or_(other)

  /** `s[n:]`: Python slicing never fails, a start past the end gives "". */
  function From(s: string, n: nat): (r: string)
    ensures n <= |s| ==> s[..n] + r == s
    ensures n > |s| ==> r == ""
  {
    if n <= |s| then s[n..] else ""
  }

  predicate IsXPath(selector: string) {
    "//" <= selector || "(//" <= selector
  }

  /** The selector kinds recognised by a prefix, in the order `locate` tries them. */
  predicate HasKnownPrefix(selector: string) {
    || IsXPath(selector) || "text=" <= selector || "role=" <= selector
    || "placeholder=" <= selector || "label=" <= selector || "title=" <= selector
    || "alt=" <= selector || "testid=" <= selector
  }

  // ---------------------------------------------------------------------------------------
  // `key=value` parts

  /** A comma-separated part after the first one: `key=value`, split at the first '=' with both
      sides stripped, or a part without '=' (which the parsers drop). */
  datatype Part = Assign(key: string, value: string) | NoAssign

  /** `key, value = part.split("=", 1); key = key.strip(); value = value.strip()`. */
  function ParsePart(part: string): (p: Part)
    ensures p.Assign? <==> '=' in part
  {
    if '=' in part then
      var halves := SplitOnce(part, '=');
      Assign(Strip(halves.0), Strip(halves.1))
    else NoAssign
  }

  /** An assignment part is cut at its first '=': the key is the stripped text before it and
      the value the stripped text after it. */
  lemma ParsePartHalves(part: string)
    ensures ParsePart(part).Assign? ==>
              exists k, v :: part == k + "=" + v && '=' !in k
                && ParsePart(part).key == Strip(k) && ParsePart(part).value == Strip(v)
  {
    if '=' in part {
      var halves := SplitOnce(part, '=');
      SplitOnceRejoins(part, '=');
      assert part == halves.0 + "=" + halves.1;
    }
  }

  /** Every part, parsed. */
  function ParseParts(parts: seq<string>): (ps: seq<Part>)
    ensures |ps| == |parts|
    ensures forall i :: 0 <= i < |parts| ==> ps[i] == ParsePart(parts[i])
  {
    seq(|parts|, i requires 0 <= i < |parts| => ParsePart(parts[i]))
  }

  /** Parsing one more part appends its parse. */
  lemma ParsePartsSnoc(parts: seq<string>, i: nat)
    requires i < |parts|
    ensures ParseParts(parts[..i + 1]) == ParseParts(parts[..i]) + [ParsePart(parts[i])]
  {
  }

  /** Whether a part assigns `key`. */
  predicate Defines(p: Part, key: string) {
    p.Assign? && p.key == key
  }

  /** Boolean coercion of an option value. */
  function Coerce(value: string): (v: OptionValue)
    ensures v.Text? ==> v.s == value
  {
    if Lower(value) == "true" || Lower(value) == "false" then Flag(Lower(value) == "true")
    else Text(value)
  }

  /** A value becomes a boolean exactly when it spells "true" or "false" in some mix of cases. */
  lemma CoerceIsCaseInsensitive(value: string)
    ensures Coerce(value) == Flag(true) <==>
              |value| == 4 && value[0] in "tT" && value[1] in "rR" && value[2] in "uU" && value[3] in "eE"
    ensures Coerce(value) == Flag(false) <==>
              |value| == 5 && value[0] in "fF" && value[1] in "aA" && value[2] in "lL"
              && value[3] in "sS" && value[4] in "eE"
  {
    LowerMatches(value, "true");
    LowerMatches(value, "false");
  }

  // ---------------------------------------------------------------------------------------
  // `text=` selectors

  /** The keyword arguments that the parts after the text give, read from left to right. */
  function TextOptions(ps: seq<Part>): Options
  {
    if ps == [] then map[]
    else
      var last := ps[|ps| - 1];
      var acc := TextOptions(ps[..|ps| - 1]);
      if last.Assign? then acc[last.key := Coerce(last.value)] else acc
  }

  /** Some part among the first `n` assigns `key`. */
  predicate AssignedBefore(ps: seq<Part>, n: nat, key: string)
    requires n <= |ps|
  {
    exists i :: 0 <= i < n && Defines(ps[i], key)
  }

  /** A key is passed exactly when some part assigns it. */
  lemma {:induction false} TextOptionsKeys(ps: seq<Part>, key: string)
    ensures key in TextOptions(ps) <==> AssignedBefore(ps, |ps|, key)
  {
    if ps != [] {
      var n := |ps| - 1;
      var init := ps[..n];
      TextOptionsKeys(init, key);
      if AssignedBefore(init, n, key) {
        var i :| 0 <= i < n && Defines(init[i], key);
        assert ps[i] == init[i];
      }
      if AssignedBefore(ps, n, key) {
        var i :| 0 <= i < n && Defines(ps[i], key);
        assert ps[i] == init[i];
      }
    }
  }

  /** A passed key gets the (coerced) value of the last part that assigns it: a later occurrence
      overwrites an earlier one. */
  lemma {:induction false} TextOptionsLastWins(ps: seq<Part>, key: string, i: nat)
    requires i < |ps| && Defines(ps[i], key)
    requires forall j :: i < j < |ps| ==> !Defines(ps[j], key)
    ensures key in TextOptions(ps) && TextOptions(ps)[key] == Coerce(ps[i].value)
  {
    var n := |ps| - 1;
    if i < n {
      var init := ps[..n];
      assert init[i] == ps[i];
      assert forall j :: i < j < n ==> init[j] == ps[j];
      TextOptionsLastWins(init, key, i);
    }
  }

  /** The locator that `_parse_text_locator` builds for a selector starting with "text=". */
  function TextLocator(selector: string): Locator
  {
    var textPart := From(selector, 5);
    if ',' in textPart then
      var parts := Split(textPart, ',');
      ByText(Strip(parts[0]), TextOptions(ParseParts(parts[1..])))
    else
      ByText(textPart, map[])
  }

  /** Folding one more part into the text options. */
  lemma TextOptionsSnoc(ps: seq<Part>, p: Part)
    ensures TextOptions(ps + [p]) == if p.Assign? then TextOptions(ps)[p.key := Coerce(p.value)] else TextOptions(ps)
  {
    assert (ps + [p])[..|ps|] == ps;
  }

  /** The option loop of `_parse_text_locator` over the parts after the text. */
  method GatherTextOptions(rest: seq<string>) returns (kwargs: Options)
    ensures kwargs == TextOptions(ParseParts(rest))
  {
    kwargs := map[];
    for i := 0 to |rest|
      invariant kwargs == TextOptions(ParseParts(rest[..i]))
    {
      var part := ParsePart(rest[i]);
      ParsePartsSnoc(rest, i);
      TextOptionsSnoc(ParseParts(rest[..i]), part);
      if part.Assign? {
        var key, value := part.key, part.value;
        kwargs := kwargs[key := Coerce(value)];
      }
    }
    assert rest[..|rest|] == rest;
  }

  /** `_parse_text_locator`: without a comma the whole remainder is the text; with commas the
      first part, stripped, is the text and the other `key=value` parts become options. */
  method ParseTextLocator(selector: string) returns (loc: Locator)
    ensures loc == TextLocator(selector)
  {
    var textPart := From(selector, 5);
    if ',' in textPart {
      var parts := Split(textPart, ',');
      var text := Strip(parts[0]);
      var kwargs := GatherTextOptions(parts[1..]);
      loc := ByText(text, kwargs);
    } else {
      loc := ByText(textPart, map[]);
    }
  }

  // ---------------------------------------------------------------------------------------
  // `role=` selectors

  /** What the option loop of `_parse_role_locator` has gathered so far. */
  datatype RoleParse = RoleParse(
    options: Options,            // kwargs for get_by_role
    hasText: Option<string>,     // filter_options["has_text"]
    hasNotText: Option<string>,  // filter_options["has_not_text"]
    andLocator: Option<Locator>,
    orLocator: Option<Locator>)

  const NoRoleOptions := RoleParse(map[], None, None, None, None)

  /** The keys that do not become `get_by_role` keyword arguments. */
  predicate IsSpecialRoleKey(key: string) {
    key in {"filter_text", "filter_not_text", "filter_has", "and_title", "and_text", "or_text"}
  }

  /** One pass of the option loop. */
  function RoleStep(acc: RoleParse, p: Part): RoleParse {
    match p
    case NoAssign => acc
    case Assign(key, value) =>
      if key == "filter_text" then acc.(hasText := Some(value))
      else if key == "filter_not_text" then acc.(hasNotText := Some(value))
      else if key == "filter_has" then acc
      else if key == "and_title" then acc.(andLocator := Some(ByTitle(value)))
      else if key == "and_text" then acc.(andLocator := Some(ByText(value, map[])))
      else if key == "or_text" then acc.(orLocator := Some(ByText(value, map[])))
      else acc.(options := acc.options[key := Coerce(value)])
  }

  /** The option loop over all parts, from left to right. */
  function RoleFold(ps: seq<Part>): RoleParse {
    if ps == [] then NoRoleOptions
    else RoleStep(RoleFold(ps[..|ps| - 1]), ps[|ps| - 1])
  }

  /** A key is a `get_by_role` option exactly when it is not one of the six special keys and
      some part assigns it: the special keys are consumed by the loop and never passed on. */
  lemma {:induction false} RoleOptionsKeys(ps: seq<Part>, key: string)
    ensures key in RoleFold(ps).options <==> !IsSpecialRoleKey(key) && AssignedBefore(ps, |ps|, key)
  {
    if ps != [] {
      var n := |ps| - 1;
      var init := ps[..n];
      RoleOptionsKeys(init, key);
      if AssignedBefore(init, n, key) {
        var i :| 0 <= i < n && Defines(init[i], key);
        assert ps[i] == init[i];
      }
      if AssignedBefore(ps, n, key) {
        var i :| 0 <= i < n && Defines(ps[i], key);
        assert ps[i] == init[i];
      }
    }
  }

  /** A `get_by_role` option gets the (coerced) value of the last part that assigns it. */
  lemma {:induction false} RoleOptionsLastWins(ps: seq<Part>, key: string, i: nat)
    requires !IsSpecialRoleKey(key)
    requires i < |ps| && Defines(ps[i], key)
    requires forall j :: i < j < |ps| ==> !Defines(ps[j], key)
    ensures key in RoleFold(ps).options && RoleFold(ps).options[key] == Coerce(ps[i].value)
  {
    var n := |ps| - 1;
    if i < n {
      var init := ps[..n];
      assert init[i] == ps[i];
      assert forall j :: i < j < n ==> init[j] == ps[j];
      RoleOptionsLastWins(init, key, i);
    }
  }

  /** The `has_text` filter is set exactly when some part assigns `filter_text`, from the last
      such part; `filter_has` parts are accepted and ignored. */
  lemma {:induction false} RoleFilterText(ps: seq<Part>)
    ensures RoleFold(ps).hasText.Some? <==> AssignedBefore(ps, |ps|, "filter_text")
    ensures forall i :: 0 <= i < |ps| && Defines(ps[i], "filter_text")
                        && (forall j :: i < j < |ps| ==> !Defines(ps[j], "filter_text"))
                        ==> RoleFold(ps).hasText == Some(ps[i].value)
  {
    if ps != [] {
      var n := |ps| - 1;
      var init := ps[..n];
      RoleFilterText(init);
      assert forall j :: 0 <= j < n ==> init[j] == ps[j];
      if AssignedBefore(ps, n, "filter_text") {
        var i :| 0 <= i < n && Defines(ps[i], "filter_text");
        assert Defines(init[i], "filter_text");
      }
    }
  }

  /** The `has_not_text` filter is set exactly when some part assigns `filter_not_text`, from
      the last such part. */
  lemma {:induction false} RoleFilterNotText(ps: seq<Part>)
    ensures RoleFold(ps).hasNotText.Some? <==> AssignedBefore(ps, |ps|, "filter_not_text")
    ensures forall i :: 0 <= i < |ps| && Defines(ps[i], "filter_not_text")
                        && (forall j :: i < j < |ps| ==> !Defines(ps[j], "filter_not_text"))
                        ==> RoleFold(ps).hasNotText == Some(ps[i].value)
  {
    if ps != [] {
      var n := |ps| - 1;
      var init := ps[..n];
      RoleFilterNotText(init);
      assert forall j :: 0 <= j < n ==> init[j] == ps[j];
      if AssignedBefore(ps, n, "filter_not_text") {
        var i :| 0 <= i < n && Defines(ps[i], "filter_not_text");
        assert Defines(init[i], "filter_not_text");
      }
    }
  }

  /** Whether a part sets the AND locator. */
  predicate SetsAnd(p: Part) {
    Defines(p, "and_title") || Defines(p, "and_text")
  }

  /** The locator an `and_title`/`and_text` part combines with. */
  function AndLocatorOf(p: Part): Locator
    requires SetsAnd(p)
  {
    if p.key == "and_title" then ByTitle(p.value) else ByText(p.value, map[])
  }

  /** One pass of the option loop sets the AND slot exactly for an `and_title`/`and_text` part. */
  lemma RoleStepAnd(acc: RoleParse, p: Part)
    ensures RoleStep(acc, p).andLocator == if SetsAnd(p) then Some(AndLocatorOf(p)) else acc.andLocator
  {
  }

  /** `and_title` and `and_text` share one slot: it is set exactly when some part assigns either
      key, and the last such part decides between `get_by_title` and `get_by_text`. */
  lemma {:induction false} RoleAndLocator(ps: seq<Part>)
    ensures RoleFold(ps).andLocator.Some? <==> exists i :: 0 <= i < |ps| && SetsAnd(ps[i])
    ensures forall i :: 0 <= i < |ps| && SetsAnd(ps[i]) && (forall j :: i < j < |ps| ==> !SetsAnd(ps[j]))
                        ==> RoleFold(ps).andLocator == Some(AndLocatorOf(ps[i]))
  {
    if ps != [] {
      var n := |ps| - 1;
      var init := ps[..n];
      RoleAndLocator(init);
      RoleStepAnd(RoleFold(init), ps[n]);
      assert forall j :: 0 <= j < n ==> init[j] == ps[j];
      if exists i :: 0 <= i < n && SetsAnd(ps[i]) {
        var i :| 0 <= i < n && SetsAnd(ps[i]);
        assert SetsAnd(init[i]);
      }
    }
  }

  /** `or_text` sets the OR locator to `get_by_text` of the last such part's value. */
  lemma {:induction false} RoleOrLocator(ps: seq<Part>)
    ensures RoleFold(ps).orLocator.Some? <==> AssignedBefore(ps, |ps|, "or_text")
    ensures forall i :: 0 <= i < |ps| && Defines(ps[i], "or_text")
                        && (forall j :: i < j < |ps| ==> !Defines(ps[j], "or_text"))
                        ==> RoleFold(ps).orLocator == Some(ByText(ps[i].value, map[]))
  {
    if ps != [] {
      var n := |ps| - 1;
      var init := ps[..n];
      RoleOrLocator(init);
      assert forall j :: 0 <= j < n ==> init[j] == ps[j];
      if AssignedBefore(ps, n, "or_text") {
        var i :| 0 <= i < n && Defines(ps[i], "or_text");
        assert Defines(init[i], "or_text");
      }
    }
  }

  /** The final locator of the comma form: the role locator, then the filter, then AND, then OR. */
  function AssembleRole(role: string, acc: RoleParse): Locator {
    var base := ByRole(role, acc.options);
    var filtered :=
      if acc.hasText.Some? || acc.hasNotText.Some?
      then Filtered(base, FilterOptions(acc.hasText, acc.hasNotText, None, None))
      else base;
    var anded := if acc.andLocator.Some? then Both(filtered, acc.andLocator.value) else filtered;
    if acc.orLocator.Some? then Either(anded, acc.orLocator.value) else anded
  }

  /** The role locator at the core of an assembled locator. */
  function RoleCore(loc: Locator): Locator {
    match loc
    case Filtered(base, _) => RoleCore(base)
    case Both(base, _) => RoleCore(base)
    case Either(base, _) => RoleCore(base)
    case _ => loc
  }

  /** The wrappers applied around a locator, innermost first: "filter", "and", "or". */
  function Layers(loc: Locator): seq<string> {
    match loc
    case Filtered(base, _) => Layers(base) + ["filter"]
    case Both(base, _) => Layers(base) + ["and"]
    case Either(base, _) => Layers(base) + ["or"]
    case _ => []
  }

  /** The filter applied somewhere around a locator, if any. */
  function FilterOf(loc: Locator): Option<FilterOptions> {
    match loc
    case Filtered(_, filter) => Some(filter)
    case Both(base, _) => FilterOf(base)
    case Either(base, _) => FilterOf(base)
    case _ => None
  }

  /** The locator combined with `and_` somewhere around a locator, if any. */
  function AndOperand(loc: Locator): Option<Locator> {
    match loc
    case Both(_, other) => Some(other)
    case Either(base, _) => AndOperand(base)
    case Filtered(base, _) => AndOperand(base)
    case _ => None
  }

  /** The locator combined with `or_` around a locator, if any. */
  function OrOperand(loc: Locator): Option<Locator> {
    match loc
    case Either(_, other) => Some(other)
    case Both(base, _) => OrOperand(base)
    case Filtered(base, _) => OrOperand(base)
    case _ => None
  }

  /** The assembled locator always queries `get_by_role(role, **options)`; the wrappers come in
      the order filter, AND, OR; the filter is applied only when a filter text was given and
      passes exactly `has_text`/`has_not_text` from the parts; the AND and OR operands are the
      locators the parts built. */
  lemma AssembleRoleOrder(role: string, acc: RoleParse)
    ensures RoleCore(AssembleRole(role, acc)) == ByRole(role, acc.options)
    ensures Layers(AssembleRole(role, acc)) ==
              (if acc.hasText.Some? || acc.hasNotText.Some? then ["filter"] else [])
              + (if acc.andLocator.Some? then ["and"] else [])
              + (if acc.orLocator.Some? then ["or"] else [])
    ensures FilterOf(AssembleRole(role, acc)) ==
              if acc.hasText.Some? || acc.hasNotText.Some?
              then Some(FilterOptions(acc.hasText, acc.hasNotText, None, None)) else None
    ensures AndOperand(AssembleRole(role, acc)) == acc.andLocator
    ensures OrOperand(AssembleRole(role, acc)) == acc.orLocator
  {
    var base := ByRole(role, acc.options);
    var f: seq<string> := if acc.hasText.Some? || acc.hasNotText.Some? then ["filter"] else [];
    var a: seq<string> := if acc.andLocator.Some? then ["and"] else [];
    var o: seq<string> := if acc.orLocator.Some? then ["or"] else [];
    var filtered :=
      if acc.hasText.Some? || acc.hasNotText.Some?
      then Filtered(base, FilterOptions(acc.hasText, acc.hasNotText, None, None))
      else base;
    assert Layers(filtered) == f;
    assert RoleCore(filtered) == base;
    assert AndOperand(filtered) == None && OrOperand(filtered) == None;
    var anded := if acc.andLocator.Some? then Both(filtered, acc.andLocator.value) else filtered;
    if acc.andLocator.Some? {
      assert Layers(anded) == f + a;
    } else {
      assert f + a == f;
    }
    assert RoleCore(anded) == base;
    assert FilterOf(anded) == FilterOf(filtered) && OrOperand(anded) == None;
    if acc.orLocator.Some? {
      assert Layers(Either(anded, acc.orLocator.value)) == f + a + o;
    } else {
      assert f + a + o == f + a;
    }
  }

  /** The locator that `_parse_role_locator` builds for a selector starting with "role=". */
  function RoleLocator(selector: string): Locator
  {
    var rolePart := From(selector, 5);
    if ':' in rolePart && ',' !in rolePart then
      var halves := SplitOnce(rolePart, ':');
      ByRole(Strip(halves.0), map["name" := Text(Strip(halves.1))])
    else if ',' in rolePart then
      var parts := Split(rolePart, ',');
      AssembleRole(Strip(parts[0]), RoleFold(ParseParts(parts[1..])))
    else
      ByRole(rolePart, map[])
  }

  /** Folding one more part into the role options. */
  lemma RoleFoldSnoc(ps: seq<Part>, p: Part)
    ensures RoleFold(ps + [p]) == RoleStep(RoleFold(ps), p)
  {
    assert (ps + [p])[..|ps|] == ps;
  }

  /** The option loop of `_parse_role_locator` over the parts after the role: options, filter
      texts and the AND/OR locators, each reassigned by a later part. */
  method GatherRoleOptions(rest: seq<string>) returns (acc: RoleParse)
    ensures acc == RoleFold(ParseParts(rest))
  {
    var kwargs: Options := map[];
    var hasText: Option<string> := None;
    var hasNotText: Option<string> := None;
    var andLocator: Option<Locator> := None;
    var orLocator: Option<Locator> := None;
    for i := 0 to |rest|
      invariant RoleParse(kwargs, hasText, hasNotText, andLocator, orLocator) == RoleFold(ParseParts(rest[..i]))
    {
      var part := ParsePart(rest[i]);
      ParsePartsSnoc(rest, i);
      RoleFoldSnoc(ParseParts(rest[..i]), part);
      if part.Assign? {
        var key, value := part.key, part.value;
        if key == "filter_text" {
          hasText := Some(value);
        } else if key == "filter_not_text" {
          hasNotText := Some(value);
        } else if key == "filter_has" {
        } else if key == "and_title" {
          andLocator := Some(ByTitle(value));
        } else if key == "and_text" {
          andLocator := Some(ByText(value, map[]));
        } else if key == "or_text" {
          orLocator := Some(ByText(value, map[]));
        } else {
          kwargs := kwargs[key := Coerce(value)];
        }
      }
    }
    assert rest[..|rest|] == rest;
    acc := RoleParse(kwargs, hasText, hasNotText, andLocator, orLocator);
  }

  /** `_parse_role_locator`: the short form `role:name`, the comma form with options, filters and
      combinators, and the bare role. */
  method ParseRoleLocator(selector: string) returns (loc: Locator)
    ensures loc == RoleLocator(selector)
  {
    var rolePart := From(selector, 5);
    if ':' in rolePart && ',' !in rolePart {
      var halves := SplitOnce(rolePart, ':');
      loc := ByRole(Strip(halves.0), map["name" := Text(Strip(halves.1))]);
    } else if ',' in rolePart {
      var parts := Split(rolePart, ',');
      var role := Strip(parts[0]);
      var acc := GatherRoleOptions(parts[1..]);
      var baseLocator := ByRole(role, acc.options);
      if acc.hasText.Some? || acc.hasNotText.Some? {
        baseLocator := Filtered(baseLocator, FilterOptions(acc.hasText, acc.hasNotText, None, None));
      }
      if acc.andLocator.Some? {
        baseLocator := Both(baseLocator, acc.andLocator.value);
      }
      if acc.orLocator.Some? {
        baseLocator := Either(baseLocator, acc.orLocator.value);
      }
      loc := baseLocator;
    } else {
      loc := ByRole(rolePart, map[]);
    }
  }

  // ---------------------------------------------------------------------------------------
  // `locate`

  /** The locator `locate` builds for a selector: dispatch on the first matching prefix. */
  function Located(selector: string): Locator
  {
    if IsXPath(selector) then PageLocator("xpath=" + selector)
    else if "text=" <= selector then TextLocator(selector)
    else if "role=" <= selector then RoleLocator(selector)
    else if "placeholder=" <= selector then ByPlaceholder(From(selector, 12))
    else if "label=" <= selector then ByLabel(From(selector, 6))
    else if "title=" <= selector then ByTitle(From(selector, 6))
    else if "alt=" <= selector then ByAltText(From(selector, 4))
    else if "testid=" <= selector then ByTestId(From(selector, 7))
    else PageLocator(selector)
  }

  /** `ElementLocator.locate`. */
  method Locate(selector: string) returns (loc: Locator)
    ensures loc == Located(selector)
  {
    if "//" <= selector || "(//" <= selector {
      loc := PageLocator("xpath=" + selector);
    } else if "text=" <= selector {
      loc := ParseTextLocator(selector);
    } else if "role=" <= selector {
      loc := ParseRoleLocator(selector);
    } else if "placeholder=" <= selector {
      loc := ByPlaceholder(From(selector, 12));
    } else if "label=" <= selector {
      loc := ByLabel(From(selector, 6));
    } else if "title=" <= selector {
      loc := ByTitle(From(selector, 6));
    } else if "alt=" <= selector {
      loc := ByAltText(From(selector, 4));
    } else if "testid=" <= selector {
      loc := ByTestId(From(selector, 7));
    } else {
      loc := PageLocator(selector);
    }
  }

  /** XPath selectors go to `page.locator` whole, behind the "xpath=" engine prefix. */
  lemma XPathSelector(selector: string)
    requires "//" <= selector || "(//" <= selector
    ensures Located(selector) == PageLocator("xpath=" + selector)
    ensures Located(selector).selector[6..] == selector
  {
  }

  /** A selector with none of the recognised prefixes is handed to `page.locator` unchanged. */
  lemma CssFallback(selector: string)
    requires !HasKnownPrefix(selector)
    ensures Located(selector) == PageLocator(selector)
  {
  }

  /** `q` is not a prefix of `p + t` when it differs from `p` at a position inside both. */
  lemma Mismatch(q: string, p: string, t: string, k: nat)
    requires k < |p| && k < |q| && p[k] != q[k]
    ensures !(q <= p + t)
  {
    assert (p + t)[k] == p[k];
  }

  /** `p + t` starts with `p`, and slicing off `|p|` characters leaves `t`. */
  lemma Prefixed(p: string, t: string)
    ensures p <= p + t && From(p + t, |p|) == t
  {
    assert (p + t)[..|p|] == p;
  }

  /** `placeholder=` passes exactly the text after its 12 characters to `get_by_placeholder`. */
  lemma PlaceholderPrefix(t: string)
    ensures Located("placeholder=" + t) == ByPlaceholder(t)
  {
    Mismatch("//", "placeholder=", t, 0);
    Mismatch("(//", "placeholder=", t, 0);
    Mismatch("text=", "placeholder=", t, 0);
    Mismatch("role=", "placeholder=", t, 0);
    Prefixed("placeholder=", t);
  }

  /** `label=` passes exactly the text after its 6 characters to `get_by_label`. */
  lemma LabelPrefix(t: string)
    ensures Located("label=" + t) == ByLabel(t)
  {
    Mismatch("//", "label=", t, 0);
    Mismatch("(//", "label=", t, 0);
    Mismatch("text=", "label=", t, 0);
    Mismatch("role=", "label=", t, 0);
    Mismatch("placeholder=", "label=", t, 0);
    Prefixed("label=", t);
  }

  /** `title=` passes exactly the text after its 6 characters to `get_by_title`. */
  lemma TitlePrefix(t: string)
    ensures Located("title=" + t) == ByTitle(t)
  {
    Mismatch("//", "title=", t, 0);
    Mismatch("(//", "title=", t, 0);
    Mismatch("text=", "title=", t, 1);
    Mismatch("role=", "title=", t, 0);
    Mismatch("placeholder=", "title=", t, 0);
    Mismatch("label=", "title=", t, 0);
    Prefixed("title=", t);
  }

  /** `alt=` passes exactly the text after its 4 characters to `get_by_alt_text`. */
  lemma AltPrefix(t: string)
    ensures Located("alt=" + t) == ByAltText(t)
  {
    Mismatch("//", "alt=", t, 0);
    Mismatch("(//", "alt=", t, 0);
    Mismatch("text=", "alt=", t, 0);
    Mismatch("role=", "alt=", t, 0);
    Mismatch("placeholder=", "alt=", t, 0);
    Mismatch("label=", "alt=", t, 0);
    Mismatch("title=", "alt=", t, 0);
    Prefixed("alt=", t);
  }

  /** `testid=` passes exactly the text after its 7 characters to `get_by_test_id`. */
  lemma TestIdPrefix(t: string)
    ensures Located("testid=" + t) == ByTestId(t)
  {
    Mismatch("//", "testid=", t, 0);
    Mismatch("(//", "testid=", t, 0);
    Mismatch("text=", "testid=", t, 2);
    Mismatch("role=", "testid=", t, 0);
    Mismatch("placeholder=", "testid=", t, 0);
    Mismatch("label=", "testid=", t, 0);
    Mismatch("title=", "testid=", t, 1);
    Mismatch("alt=", "testid=", t, 0);
    Prefixed("testid=", t);
  }

  /** `text=` without a comma: the whole remainder, unstripped, is the text, with no options. */
  lemma TextWithoutComma(t: string)
    requires ',' !in t
    ensures Located("text=" + t) == ByText(t, map[])
  {
    Mismatch("//", "text=", t, 0);
    Mismatch("(//", "text=", t, 0);
    Prefixed("text=", t);
  }

  /** A selector "text=" + t is parsed by the text parser, on exactly `t`. */
  lemma TextDispatch(t: string)
    ensures Located("text=" + t) == TextLocator("text=" + t)
    ensures From("text=" + t, 5) == t
  {
    Mismatch("//", "text=", t, 0);
    Mismatch("(//", "text=", t, 0);
    Prefixed("text=", t);
  }

  /** `text=` with a comma: the first comma part, stripped, is the text; of the parsed later
      parts `ps`, a key is passed exactly when one of them assigns it, with the coerced value of
      the last one that does. */
  lemma TextWithComma(t: string, key: string)
    requires ',' in t
    ensures var parts, loc := Split(t, ','), Located("text=" + t);
      var ps := ParseParts(parts[1..]);
      && loc.ByText?
      && loc.text == Strip(parts[0])
      && (key in loc.options <==> exists i :: 0 <= i < |ps| && Defines(ps[i], key))
      && forall i :: 0 <= i < |ps| && Defines(ps[i], key)
                     && (forall j :: i < j < |ps| ==> !Defines(ps[j], key))
                     ==> key in loc.options && loc.options[key] == Coerce(ps[i].value)
  {
    TextDispatch(t);
    var parts := Split(t, ',');
    var ps := ParseParts(parts[1..]);
    assert Located("text=" + t) == ByText(Strip(parts[0]), TextOptions(ps));
    TextOptionsKeys(ps, key);
    forall i | 0 <= i < |ps| && Defines(ps[i], key) && (forall j :: i < j < |ps| ==> !Defines(ps[j], key))
      ensures key in TextOptions(ps) && TextOptions(ps)[key] == Coerce(ps[i].value)
    {
      TextOptionsLastWins(ps, key, i);
    }
  }

  /** A selector "role=" + t is parsed by the role parser, on exactly `t`. */
  lemma RoleDispatch(t: string)
    ensures Located("role=" + t) == RoleLocator("role=" + t)
    ensures From("role=" + t, 5) == t
  {
    Mismatch("//", "role=", t, 0);
    Mismatch("(//", "role=", t, 0);
    Mismatch("text=", "role=", t, 0);
    Prefixed("role=", t);
  }

  /** The short role form `role=<role>:<name>` (no comma): split at the first colon, both halves
      stripped, the name passed as the `name` option (never coerced to a boolean). */
  lemma RoleWithName(role: string, name: string)
    requires ':' !in role && ',' !in role && ',' !in name
    ensures Located("role=" + role + ":" + name) == ByRole(Strip(role), map["name" := Text(Strip(name))])
  {
    var rolePart := role + [':'] + name;
    assert "role=" + role + ":" + name == "role=" + rolePart;
    RoleDispatch(rolePart);
    SplitOnceOfJoin(role, ':', name);
    assert ',' !in rolePart;
  }

  /** The comma form `role=<role>,<key>=<value>,...` (a colon in it does not make it the short
      form): `get_by_role` of the stripped first part with the options gathered from the later
      parts, wrapped in filter, AND and OR as those parts ask. */
  lemma RoleWithOptions(t: string)
    requires ',' in t
    ensures var parts := Split(t, ',');
      Located("role=" + t) == AssembleRole(Strip(parts[0]), RoleFold(ParseParts(parts[1..])))
    ensures var parts, loc := Split(t, ','), Located("role=" + t);
      var acc := RoleFold(ParseParts(parts[1..]));
      && RoleCore(loc) == ByRole(Strip(parts[0]), acc.options)
      && Layers(loc) ==
           (if acc.hasText.Some? || acc.hasNotText.Some? then ["filter"] else [])
           + (if acc.andLocator.Some? then ["and"] else [])
           + (if acc.orLocator.Some? then ["or"] else [])
      && FilterOf(loc) ==
           (if acc.hasText.Some? || acc.hasNotText.Some?
            then Some(FilterOptions(acc.hasText, acc.hasNotText, None, None)) else None)
      && AndOperand(loc) == acc.andLocator
      && OrOperand(loc) == acc.orLocator
  {
    RoleDispatch(t);
    var parts := Split(t, ',');
    var acc := RoleFold(ParseParts(parts[1..]));
    assert Located("role=" + t) == AssembleRole(Strip(parts[0]), acc);
    AssembleRoleOrder(Strip(parts[0]), acc);
  }

  /** Two comma-free pieces joined by a comma split back into the two. */
  lemma SplitPair(a: string, b: string)
    requires ',' !in a && ',' !in b
    ensures ',' in a + "," + b && Split(a + "," + b, ',') == [a, b]
  {
    SplitJoin([a, b], ',');
    assert Join([a, b], ',') == a + "," + b;
    assert (a + "," + b)[|a|] == ',';
  }

  /** `key=value` with a key free of '=' and white space parses to that key and the stripped
      value. */
  lemma ParseAssignment(key: string, value: string)
    requires '=' !in key && key != "" && !IsSpace(key[0]) && !IsSpace(key[|key| - 1])
    ensures ParsePart(key + "=" + value) == Assign(key, Strip(value))
  {
    SplitOnceOfJoin(key, '=', value);
    StripKeeps(key);
  }

  /** A lone `filter_text` part wraps the option-less role locator in a `has_text` filter. */
  lemma FilterTextAssembly(role: string, text: string)
    ensures AssembleRole(role, RoleFold([Assign("filter_text", text)]))
              == Filtered(ByRole(role, map[]), FilterOptions(Some(text), None, None, None))
  {
    assert RoleFold([Assign("filter_text", text)]) == NoRoleOptions.(hasText := Some(text));
  }

  /** A role selector whose remainder splits into a role and one `filter_text` part. */
  lemma FilterTextSelector(t: string, role: string, text: string, part: string)
    requires ',' in t && Split(t, ',') == [role, part]
    requires ParsePart(part) == Assign("filter_text", Strip(text))
    ensures Located("role=" + t)
              == Filtered(ByRole(Strip(role), map[]), FilterOptions(Some(Strip(text)), None, None, None))
  {
    RoleWithOptions(t);
    assert [role, part][1..] == [part];
    assert ParseParts([part]) == [Assign("filter_text", Strip(text))];
    FilterTextAssembly(Strip(role), Strip(text));
  }

  /** The selector `role=<role>,filter_text=<text>` is "role=" followed by the role, a comma and
      the `filter_text` part. */
  lemma FilterTextSpelling(role: string, text: string)
    ensures "role=" + role + ",filter_text=" + text == "role=" + (role + "," + ("filter_text" + "=" + text))
  {
  }

  /** `role=<role>,filter_text=<text>` (as in `role=listitem,filter_text=Product 2`): the role
      locator narrowed by `filter(has_text=text)`, with no `get_by_role` options. */
  lemma RoleWithFilterText(role: string, text: string)
    requires ',' !in role && ',' !in text
    ensures Located("role=" + role + ",filter_text=" + text)
              == Filtered(ByRole(Strip(role), map[]), FilterOptions(Some(Strip(text)), None, None, None))
  {
    var part := "filter_text" + "=" + text;
    assert ',' !in part;
    ParseAssignment("filter_text", text);
    SplitPair(role, part);
    FilterTextSelector(role + "," + part, role, text, part);
    FilterTextSpelling(role, text);
  }

  /** The bare role form: with neither ':' nor ',' the whole remainder is the role. */
  lemma RoleBare(role: string)
    requires ':' !in role && ',' !in role
    ensures Located("role=" + role) == ByRole(role, map[])
  {
    Mismatch("//", "role=", role, 0);
    Mismatch("(//", "role=", role, 0);
    Mismatch("text=", "role=", role, 0);
    Prefixed("role=", role);
  }

  // ---------------------------------------------------------------------------------------
  // Combined locators

  /** Python truthiness of an optional string argument: neither `None` nor "". */
  predicate Given(arg: Option<string>) {
    arg.Some? && arg.value != ""
  }

  /** `locate_with_filter`: the located base, filtered by the options that were given (an absent
      or empty argument is not passed; `has`/`has_not` are selectors, located in turn). */
  method LocateWithFilter(selector: string, hasText: Option<string>, hasNotText: Option<string>,
                          has: Option<string>, hasNot: Option<string>) returns (loc: Locator)
    ensures loc.Filtered? && loc.base == Located(selector)
    ensures loc.filter.hasText == (if Given(hasText) then hasText else None)
    ensures loc.filter.hasNotText == (if Given(hasNotText) then hasNotText else None)
    ensures loc.filter.has == (if Given(has) then Some(Located(has.value)) else None)
    ensures loc.filter.hasNot == (if Given(hasNot) then Some(Located(hasNot.value)) else None)
  {
    var baseLocator := Locate(selector);
    var filter := FilterOptions(None, None, None, None);
    if Given(hasText) {
      filter := filter.(hasText := hasText);
    }
    if Given(hasNotText) {
      filter := filter.(hasNotText := hasNotText);
    }
    if Given(has) {
      var hasLocator := Locate(has.value);
      filter := filter.(has := Some(hasLocator));
    }
    if Given(hasNot) {
      var hasNotLocator := Locate(hasNot.value);
      filter := filter.(hasNot := Some(hasNotLocator));
    }
    loc := Filtered(baseLocator, filter);
  }

  /** `locate_and`: both selectors located, combined with `and_`. */
  method LocateAnd(selector1: string, selector2: string) returns (loc: Locator)
    ensures loc == Both(Located(selector1), Located(selector2))
  {
    var locator1 := Locate(selector1);
    var locator2 := Locate(selector2);
    loc := Both(locator1, locator2);
  }

  /** `locate_or`: both selectors located, combined with `or_`. */
  method LocateOr(selector1: string, selector2: string) returns (loc: Locator)
    ensures loc == Either(Located(selector1), Located(selector2))
  {
    var locator1 := Locate(selector1);
    var locator2 := Locate(selector2);
    loc := Either(locator1, locator2);
  }
}
