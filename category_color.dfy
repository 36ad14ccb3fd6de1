/** The category colour resolver of the charts and lists: a fixed table of
    eight display categories, an exact lookup on the trimmed name, then an
    ordered cascade of case-insensitive keyword rules, then "Other". */
module CategoryColor {
  import opened Text
  import opened JsObject

  const FoodColor := "#fd5901"
  const TransportationColor := "#f78104"
  const HousingColor := "#faab36"
  const EntertainmentColor := "#249ea0"
  const ShoppingColor := "#008083"
  const OtherColor := "#9B9B9B"
  const HealthcareColor := "#96CEB4"
  const EducationColor := "#FECA57"

  /** `CATEGORY_COLORS`. */
  const CategoryColors: map<string, string> := map[
    "Food & Groceries" := FoodColor,
    "Transportation" := TransportationColor,
    "Housing & Utilities" := HousingColor,
    "Entertainment" := EntertainmentColor,
    "Shopping" := ShoppingColor,
    "Other" := OtherColor,
    "Healthcare" := HealthcareColor,
    "Education" := EducationColor
  ]

  /** The keyword phase, on the trimmed and lower-cased category: the first
      `if` whose keyword occurs decides the colour. */
  function KeywordColor(lower: string): (r: string)
    ensures r in Palette
  {
    if Contains(lower, "food") || Contains(lower, "groceries") then FoodColor
    else if Contains(lower, "transport") || Contains(lower, "gas") then TransportationColor
    else if Contains(lower, "housing") || Contains(lower, "utilities") then HousingColor
    else if Contains(lower, "entertainment") then EntertainmentColor
    else if Contains(lower, "shopping") then ShoppingColor
    else if Contains(lower, "health") then HealthcareColor
    else if Contains(lower, "education") then EducationColor
    else OtherColor
  }

  /** `getCategoryColor`: always one of the eight table colours. The direct
      lookup consults the table's own keys only (see `GetCategoryColorAsWritten`
      for the lookup as the code performs it). */
  function GetCategoryColor(category: string): (r: string)
    ensures r in Palette
  {
    var normalized := Trim(category);
    if normalized in CategoryColors then CategoryColors[normalized]
    else KeywordColor(Lower(normalized))
  }

  /** The eight colours of the table. */
  const Palette: set<string> := {FoodColor, TransportationColor, HousingColor, EntertainmentColor,
                                 ShoppingColor, OtherColor, HealthcareColor, EducationColor}

  lemma TableColors()
    ensures CategoryColors["Food & Groceries"] == FoodColor
    ensures CategoryColors["Transportation"] == TransportationColor
    ensures CategoryColors["Housing & Utilities"] == HousingColor
    ensures CategoryColors["Entertainment"] == EntertainmentColor
    ensures CategoryColors["Shopping"] == ShoppingColor
    ensures CategoryColors["Other"] == OtherColor
    ensures CategoryColors["Healthcare"] == HealthcareColor
    ensures CategoryColors["Education"] == EducationColor
    ensures CategoryColors.Values == Palette
    ensures |Palette| == 8
  {
    TableValues();
    PaletteSize();
  }

  lemma TableValues()
    ensures CategoryColors.Values == Palette
  {
    assert CategoryColors["Food & Groceries"] == FoodColor;
    assert CategoryColors["Transportation"] == TransportationColor;
    assert CategoryColors["Housing & Utilities"] == HousingColor;
    assert CategoryColors["Entertainment"] == EntertainmentColor;
    assert CategoryColors["Shopping"] == ShoppingColor;
    assert CategoryColors["Other"] == OtherColor;
    assert CategoryColors["Healthcare"] == HealthcareColor;
    assert CategoryColors["Education"] == EducationColor;
  }

  lemma PaletteSize()
    ensures |Palette| == 8
  {
  }

  // ---------------------------------------------------------------------------
  // The cascade as an ordered rule table: an independent reference definition.

  datatype Rule = Rule(keywords: seq<string>, category: string)

  /** The keyword groups in the order the code tests them. */
  const KeywordRules: seq<Rule> := [
    Rule(["food", "groceries"], "Food & Groceries"),
    Rule(["transport", "gas"], "Transportation"),
    Rule(["housing", "utilities"], "Housing & Utilities"),
    Rule(["entertainment"], "Entertainment"),
    Rule(["shopping"], "Shopping"),
    Rule(["health"], "Healthcare"),
    Rule(["education"], "Education")
  ]

  predicate RuleMatches(rule: Rule, lower: string)
  {
    exists k | k in rule.keywords :: Contains(lower, k)
  }

  /** The category of the first rule that matches, "Other" when none does. */
  function FirstMatch(rules: seq<Rule>, lower: string): (r: string)
  {
    if rules == [] then "Other"
    else if RuleMatches(rules[0], lower) then rules[0].category
    else FirstMatch(rules[1..], lower)
  }

  /** Rule precedence: a matching rule decides exactly when no earlier rule
      matches. */
  lemma {:induction false} FirstMatchPrecedence(rules: seq<Rule>, lower: string, i: int)
    requires 0 <= i < |rules| && RuleMatches(rules[i], lower)
    requires forall j :: 0 <= j < i ==> !RuleMatches(rules[j], lower)
    ensures FirstMatch(rules, lower) == rules[i].category
  {
    if i > 0 {
      assert !RuleMatches(rules[0], lower);
      FirstMatchPrecedence(rules[1..], lower, i - 1);
    }
  }

  lemma {:induction false} FirstMatchNone(rules: seq<Rule>, lower: string)
    requires forall j :: 0 <= j < |rules| ==> !RuleMatches(rules[j], lower)
    ensures FirstMatch(rules, lower) == "Other"
  {
    if rules != [] {
      assert !RuleMatches(rules[0], lower);
      FirstMatchNone(rules[1..], lower);
    }
  }

  /** The `if` chain of the code computes the rule table's first match. */
  lemma KeywordColorFollowsRules(lower: string)
    ensures FirstMatch(KeywordRules, lower) in CategoryColors
    ensures KeywordColor(lower) == CategoryColors[FirstMatch(KeywordRules, lower)]
  {
    RulesAreTheCascadeTests(lower);
    if Contains(lower, "food") || Contains(lower, "groceries") {
      FirstMatchPrecedence(KeywordRules, lower, 0);
      assert CategoryColors["Food & Groceries"] == FoodColor;
    } else if Contains(lower, "transport") || Contains(lower, "gas") {
      FirstMatchPrecedence(KeywordRules, lower, 1);
      assert CategoryColors["Transportation"] == TransportationColor;
    } else if Contains(lower, "housing") || Contains(lower, "utilities") {
      FirstMatchPrecedence(KeywordRules, lower, 2);
      assert CategoryColors["Housing & Utilities"] == HousingColor;
    } else {
      LaterRulesFollowCascade(lower);
    }
  }

  /** The second half of `KeywordColorFollowsRules`, once the first three
      rules have failed. */
  lemma LaterRulesFollowCascade(lower: string)
    requires !Contains(lower, "food") && !Contains(lower, "groceries")
    requires !Contains(lower, "transport") && !Contains(lower, "gas")
    requires !Contains(lower, "housing") && !Contains(lower, "utilities")
    ensures FirstMatch(KeywordRules, lower) in CategoryColors
    ensures KeywordColor(lower) == CategoryColors[FirstMatch(KeywordRules, lower)]
  {
    RulesAreTheCascadeTests(lower);
    if Contains(lower, "entertainment") {
      FirstMatchPrecedence(KeywordRules, lower, 3);
      assert CategoryColors["Entertainment"] == EntertainmentColor;
    } else if Contains(lower, "shopping") {
      FirstMatchPrecedence(KeywordRules, lower, 4);
      assert CategoryColors["Shopping"] == ShoppingColor;
    } else {
      LastRulesFollowCascade(lower);
    }
  }

  /** The last rules of the cascade and its default. */
  lemma LastRulesFollowCascade(lower: string)
    requires forall j :: 0 <= j < 5 ==> !RuleMatches(KeywordRules[j], lower)
    ensures FirstMatch(KeywordRules, lower) in CategoryColors
    ensures KeywordColor(lower) == CategoryColors[FirstMatch(KeywordRules, lower)]
  {
    RulesAreTheCascadeTests(lower);
    if Contains(lower, "health") {
      FirstMatchPrecedence(KeywordRules, lower, 5);
      assert CategoryColors["Healthcare"] == HealthcareColor;
    } else if Contains(lower, "education") {
      FirstMatchPrecedence(KeywordRules, lower, 6);
      assert CategoryColors["Education"] == EducationColor;
    } else {
      FirstMatchNone(KeywordRules, lower);
      assert CategoryColors["Other"] == OtherColor;
    }
  }

  /** Each rule of the table tests the keywords of one `if` of the cascade. */
  lemma RulesAreTheCascadeTests(lower: string)
    ensures |KeywordRules| == 7
    ensures RuleMatches(KeywordRules[0], lower) == (Contains(lower, "food") || Contains(lower, "groceries"))
    ensures RuleMatches(KeywordRules[1], lower) == (Contains(lower, "transport") || Contains(lower, "gas"))
    ensures RuleMatches(KeywordRules[2], lower) == (Contains(lower, "housing") || Contains(lower, "utilities"))
    ensures RuleMatches(KeywordRules[3], lower) == Contains(lower, "entertainment")
    ensures RuleMatches(KeywordRules[4], lower) == Contains(lower, "shopping")
    ensures RuleMatches(KeywordRules[5], lower) == Contains(lower, "health")
    ensures RuleMatches(KeywordRules[6], lower) == Contains(lower, "education")
  {
    FirstRulesAreCascadeTests(lower);
    LastRulesAreCascadeTests(lower);
  }

  lemma FirstRulesAreCascadeTests(lower: string)
    ensures RuleMatches(KeywordRules[0], lower) == (Contains(lower, "food") || Contains(lower, "groceries"))
    ensures RuleMatches(KeywordRules[1], lower) == (Contains(lower, "transport") || Contains(lower, "gas"))
    ensures RuleMatches(KeywordRules[2], lower) == (Contains(lower, "housing") || Contains(lower, "utilities"))
  {
  }

  lemma LastRulesAreCascadeTests(lower: string)
    ensures RuleMatches(KeywordRules[3], lower) == Contains(lower, "entertainment")
    ensures RuleMatches(KeywordRules[4], lower) == Contains(lower, "shopping")
    ensures RuleMatches(KeywordRules[5], lower) == Contains(lower, "health")
    ensures RuleMatches(KeywordRules[6], lower) == Contains(lower, "education")
  {
  }

  // ---------------------------------------------------------------------------
  // Properties of the resolver.

  /** Every table key, lower-cased, already reaches its own colour through the
      keyword rules, so the case-sensitive direct lookup never changes the
      outcome. */
  lemma ExactPhaseAgreesWithKeywords(key: string)
    requires key in CategoryColors
    ensures KeywordColor(Lower(key)) == CategoryColors[key]
  {
    if key == "Food & Groceries" {
      FoodKey();
    } else if key == "Transportation" {
      TransportationKey();
    } else if key == "Housing & Utilities" {
      HousingKey();
    } else if key == "Entertainment" {
      EntertainmentKey();
    } else if key == "Shopping" {
      ShoppingKey();
    } else if key == "Healthcare" {
      HealthcareKey();
    } else if key == "Education" {
      EducationKey();
    } else {
      OtherKey();
    }
  }

  lemma FoodKey()
    ensures KeywordColor(Lower("Food & Groceries")) == FoodColor
  {
    assert Lower("Food & Groceries") == "food & groceries";
    FoodKeywords();
  }

  lemma FoodKeywords()
    ensures KeywordColor("food & groceries") == FoodColor
  {
    var l := "food & groceries";
    assert OccursAt(l, "food", 0);
  }

  lemma TransportationKey()
    ensures KeywordColor(Lower("Transportation")) == TransportationColor
  {
    assert Lower("Transportation") == "transportation";
    TransportationKeywords();
  }

  lemma TransportationKeywords()
    ensures KeywordColor("transportation") == TransportationColor
  {
    var l := "transportation";
    assert OccursAt(l, "transport", 0);
    Absent(l, "food", 0);
    Absent(l, "groceries", 0);
  }

  lemma HousingKey()
    ensures KeywordColor(Lower("Housing & Utilities")) == HousingColor
  {
    assert Lower("Housing & Utilities") == "housing & utilities";
    HousingKeywords();
  }

  lemma HousingKeywords()
    ensures KeywordColor("housing & utilities") == HousingColor
  {
    var l := "housing & utilities";
    assert OccursAt(l, "housing", 0);
    Absent(l, "food", 0);
    Absent(l, "groceries", 3);
    Absent(l, "transport", 1);
    Absent(l, "gas", 1);
  }

  lemma EntertainmentKey()
    ensures KeywordColor(Lower("Entertainment")) == EntertainmentColor
  {
    assert Lower("Entertainment") == "entertainment";
    EntertainmentKeywords();
  }

  lemma EntertainmentKeywords()
    ensures KeywordColor("entertainment") == EntertainmentColor
  {
    var l := "entertainment";
    assert OccursAt(l, "entertainment", 0);
    Absent(l, "food", 0);
    Absent(l, "groceries", 0);
    Absent(l, "transport", 6);
    Absent(l, "gas", 0);
    Absent(l, "housing", 0);
    Absent(l, "utilities", 0);
  }

  lemma ShoppingKey()
    ensures KeywordColor(Lower("Shopping")) == ShoppingColor
  {
    assert Lower("Shopping") == "shopping";
    ShoppingKeywords();
  }

  lemma ShoppingKeywords()
    ensures KeywordColor("shopping") == ShoppingColor
  {
    var l := "shopping";
    assert OccursAt(l, "shopping", 0);
    Absent(l, "food", 0);
    Absent(l, "groceries", 3);
    Absent(l, "transport", 0);
    Absent(l, "gas", 1);
    Absent(l, "housing", 2);
    Absent(l, "utilities", 0);
    Absent(l, "entertainment", 0);
  }

  lemma HealthcareKey()
    ensures KeywordColor(Lower("Healthcare")) == HealthcareColor
  {
    assert Lower("Healthcare") == "healthcare";
    HealthcareKeywords();
  }

  lemma HealthcareKeywords()
    ensures KeywordColor("healthcare") == HealthcareColor
  {
    var l := "healthcare";
    assert OccursAt(l, "health", 0);
    Absent(l, "food", 0);
    Absent(l, "groceries", 0);
    Absent(l, "transport", 6);
    Absent(l, "gas", 0);
    Absent(l, "housing", 2);
    Absent(l, "utilities", 0);
    Absent(l, "entertainment", 9);
    Absent(l, "shopping", 0);
  }

  lemma EducationKey()
    ensures KeywordColor(Lower("Education")) == EducationColor
  {
    assert Lower("Education") == "education";
    EducationKeywords();
  }

  lemma EducationKeywords()
    ensures KeywordColor("education") == EducationColor
  {
    var l := "education";
    assert OccursAt(l, "education", 0);
    Absent(l, "food", 0);
    Absent(l, "groceries", 0);
    Absent(l, "transport", 1);
    Absent(l, "gas", 0);
    Absent(l, "housing", 0);
    Absent(l, "utilities", 3);
    Absent(l, "entertainment", 4);
    Absent(l, "shopping", 0);
    Absent(l, "health", 0);
  }

  lemma OtherKey()
    ensures KeywordColor(Lower("Other")) == OtherColor
  {
    assert Lower("Other") == "other";
    OtherKeywords();
  }

  lemma OtherKeywords()
    ensures KeywordColor("other") == OtherColor
  {
    var l := "other";
    Absent(l, "food", 0);
    Absent(l, "groceries", 0);
    Absent(l, "transport", 4);
    Absent(l, "gas", 0);
    Absent(l, "housing", 2);
    Absent(l, "utilities", 0);
    Absent(l, "entertainment", 6);
    Absent(l, "shopping", 0);
    Absent(l, "health", 2);
    Absent(l, "education", 1);
  }

  /** The colour depends only on the trimmed, lower-cased category. */
  lemma {:induction false} ColorIsKeywordColor(category: string)
    ensures GetCategoryColor(category) == KeywordColor(Lower(Trim(category)))
  {
    var normalized := Trim(category);
    if normalized in CategoryColors {
      ExactPhaseAgreesWithKeywords(normalized);
    }
  }

  /** The colour is the first matching rule's colour, or Other's. */
  lemma ColorFollowsRules(category: string)
    ensures var winner := FirstMatch(KeywordRules, Lower(Trim(category)));
            winner in CategoryColors && GetCategoryColor(category) == CategoryColors[winner]
  {
    ColorIsKeywordColor(category);
    KeywordColorFollowsRules(Lower(Trim(category)));
  }

  /** Surrounding whitespace is irrelevant. */
  lemma ColorIgnoresSurroundingWhitespace(category: string)
    ensures GetCategoryColor(category) == GetCategoryColor(Trim(category))
  {
    TrimIdempotent(category);
  }

  /** The whole resolver, exact phase included, is case-insensitive. */
  lemma ColorIsCaseInsensitive(category: string)
    ensures GetCategoryColor(category) == GetCategoryColor(Lower(category))
  {
    ColorIsKeywordColor(category);
    ColorIsKeywordColor(Lower(category));
    TrimLowerCommute(category);
    LowerIdempotent(Trim(category));
  }

  /** The food rule precedes every other rule: a category naming both food
      and gas is Food & Groceries. */
  lemma FoodRuleWins(category: string)
    requires Contains(Lower(Trim(category)), "food") || Contains(Lower(Trim(category)), "groceries")
    ensures GetCategoryColor(category) == "#fd5901"
  {
    ColorIsKeywordColor(category);
  }

  /** "transport" or "gas" gives Transportation when the food rule does not apply. */
  lemma TransportRule(category: string)
    requires !Contains(Lower(Trim(category)), "food") && !Contains(Lower(Trim(category)), "groceries")
    requires Contains(Lower(Trim(category)), "transport") || Contains(Lower(Trim(category)), "gas")
    ensures GetCategoryColor(category) == "#f78104"
  {
    ColorIsKeywordColor(category);
  }

  /** A category that none of the keyword rules matches is Other, whether or
      not it is a table key. */
  lemma NoKeywordIsOther(category: string)
    requires forall j :: 0 <= j < |KeywordRules| ==> !RuleMatches(KeywordRules[j], Lower(Trim(category)))
    ensures GetCategoryColor(category) == OtherColor
  {
    ColorFollowsRules(category);
    FirstMatchNone(KeywordRules, Lower(Trim(category)));
  }

  /** A lower-case word without surrounding whitespace is its own normal form. */
  lemma {:induction false} UnchangedByTrimAndLower(s: string)
    requires forall i :: 0 <= i < |s| ==> IsLower(s[i])
    ensures Lower(Trim(s)) == s
  {
    assert Trim(s) == s by {
      if s != [] {
        LowerLetter(s[0]);
        LowerLetter(s[|s| - 1]);
      }
      TrimUnpadded(s);
    }
    assert Lower(s) == s by {
      forall i | 0 <= i < |s|
        ensures !IsUpper(s[i])
      {
        LowerLetter(s[i]);
      }
      LowerOfLowerCase(s);
    }
  }

  /** A lower-case letter is neither whitespace nor upper case. */
  lemma LowerLetter(c: char)
    requires IsLower(c)
    ensures !IsJsSpace(c) && !IsUpper(c)
  {
  }

  // Examples. The facts about each literal input are proved apart from the
  // resolver, so that the verifier never evaluates the resolver on a literal.

  lemma PaddedShopping()
    ensures GetCategoryColor(" Shopping ") == ShoppingColor
  {
    PaddedShoppingFacts();
  }

  lemma PaddedShoppingFacts()
    ensures Trim(" Shopping ") == "Shopping"
  {
    TrimSinglePadding(" Shopping ");
    assert " Shopping "[1..9] == "Shopping";
  }

  lemma UpperCaseFood()
    ensures GetCategoryColor("FOOD stuff") == FoodColor
  {
    UpperCaseFoodFacts();
    FoodRuleWins("FOOD stuff");
  }

  lemma UpperCaseFoodFacts()
    ensures Contains(Lower(Trim("FOOD stuff")), "food")
  {
    TrimUnpadded("FOOD stuff");
    assert Lower("FOOD stuff") == "food stuff";
    assert OccursAt("food stuff", "food", 0);
  }

  lemma GasIsTransportation()
    ensures GetCategoryColor("gas") == TransportationColor
  {
    GasFacts();
    TransportRule("gas");
  }

  lemma GasFacts()
    ensures Lower(Trim("gas")) == "gas"
    ensures Contains("gas", "gas") && !Contains("gas", "food") && !Contains("gas", "groceries")
  {
    UnchangedByTrimAndLower("gas");
    GasKeywords();
  }

  lemma GasKeywords()
    ensures Contains("gas", "gas") && !Contains("gas", "food") && !Contains("gas", "groceries")
  {
    var c := "gas";
    assert OccursAt(c, "gas", 0);
    Absent(c, "food", 0);
    Absent(c, "groceries", 1);
  }

  lemma UtilitiesIsHousing()
    ensures GetCategoryColor("utilities") == HousingColor
  {
    UtilitiesFacts();
    ColorIsKeywordColor("utilities");
  }

  lemma UtilitiesFacts()
    ensures Lower(Trim("utilities")) == "utilities"
    ensures KeywordColor("utilities") == HousingColor
  {
    UnchangedByTrimAndLower("utilities");
    UtilitiesKeywords();
  }

  lemma UtilitiesKeywords()
    ensures KeywordColor("utilities") == HousingColor
  {
    var c := "utilities";
    assert OccursAt(c, "utilities", 0);
    Absent(c, "food", 0);
    Absent(c, "groceries", 0);
    Absent(c, "transport", 1);
    Absent(c, "gas", 0);
  }

  lemma HealthIsHealthcare()
    ensures GetCategoryColor("health") == HealthcareColor
  {
    HealthFacts();
    ColorIsKeywordColor("health");
  }

  lemma HealthFacts()
    ensures Lower(Trim("health")) == "health"
    ensures KeywordColor("health") == HealthcareColor
  {
    UnchangedByTrimAndLower("health");
    HealthKeywords();
  }

  lemma HealthKeywords()
    ensures KeywordColor("health") == HealthcareColor
  {
    var c := "health";
    assert OccursAt(c, "health", 0);
    Absent(c, "food", 0);
    Absent(c, "groceries", 0);
    Absent(c, "transport", 1);
    Absent(c, "gas", 0);
    Absent(c, "housing", 1);
    Absent(c, "utilities", 0);
    Absent(c, "entertainment", 1);
    Absent(c, "shopping", 0);
  }

  // ---------------------------------------------------------------------------
  // The direct lookup as written: `CATEGORY_COLORS[normalizedCategory]` also
  // finds the members inherited from Object.prototype.

  function GetCategoryColorAsWritten(category: string): (r: JsValue)
    ensures !r.Undefined?
    ensures r.Str? ==> r.s == GetCategoryColor(category)
    ensures r.Inherited? <==> Trim(category) in ObjectPrototypeMembers
  {
    var normalized := Trim(category);
    TableEntry(normalized);
    var direct := Get(CategoryColors, normalized);
    if Truthy(direct) then direct
    else Str(KeywordColor(Lower(normalized)))
  }

  /** Away from the inherited names the code returns the corrected colour. */
  lemma AsWrittenAgreesOffPrototype(category: string)
    requires Trim(category) !in ObjectPrototypeMembers
    ensures GetCategoryColorAsWritten(category) == Str(GetCategoryColor(category))
  {
    var normalized := Trim(category);
    if normalized in CategoryColors {
      TableEntry(normalized);
      assert Truthy(Get(CategoryColors, normalized));
    } else {
      assert Get(CategoryColors, normalized) == Undefined;
    }
  }

  /** A direct hit is a palette colour, hence a non-empty, truthy string, and
      no category of the table is the name of an inherited member. */
  lemma TableEntry(key: string)
    ensures key in CategoryColors ==> CategoryColors[key] in Palette && CategoryColors[key] != ""
    ensures key in CategoryColors ==> key !in ObjectPrototypeMembers
  {
    if key in CategoryColors {
      TableValues();
      assert CategoryColors[key] in CategoryColors.Values;
    }
  }

  /** "toString" is not a category, yet the direct lookup returns the
      inherited `toString` function instead of a colour. */
  lemma PrototypeNameEscapesColorTable()
    ensures GetCategoryColorAsWritten("toString") == Inherited("toString")
    ensures GetCategoryColor("toString") == OtherColor
  {
    ToStringFacts();
    ColorIsKeywordColor("toString");
  }

  lemma ToStringFacts()
    ensures Trim("toString") == "toString"
    ensures "toString" !in CategoryColors && "toString" in ObjectPrototypeMembers
    ensures Lower("toString") == "tostring"
    ensures KeywordColor("tostring") == OtherColor
  {
    ToStringNormalized();
    ToStringNotACategory();
    NoKeywordInToString();
  }

  lemma ToStringNotACategory()
    ensures "toString" !in CategoryColors
    ensures "toString" in ObjectPrototypeMembers
  {
    assert "toString"[0] != "Shopping"[0];
    assert CategoryColors.Keys == {"Food & Groceries", "Transportation", "Housing & Utilities",
      "Entertainment", "Shopping", "Other", "Healthcare", "Education"};
  }

  lemma ToStringNormalized()
    ensures Trim("toString") == "toString"
    ensures Lower("toString") == "tostring"
  {
    TrimUnpadded("toString");
    ToStringLower();
  }

  lemma ToStringLower()
    ensures Lower("toString") == "tostring"
  {
    assert Lower("toString") == "tostring";
  }

  lemma NoKeywordInToString()
    ensures KeywordColor("tostring") == OtherColor
  {
    var l := "tostring";
    Absent(l, "food", 0);
    Absent(l, "groceries", 4);
    Absent(l, "transport", 2);
    Absent(l, "gas", 1);
    Absent(l, "housing", 0);
    Absent(l, "utilities", 0);
    Absent(l, "entertainment", 0);
    Absent(l, "shopping", 1);
    Absent(l, "health", 1);
    Absent(l, "education", 1);
  }
}
