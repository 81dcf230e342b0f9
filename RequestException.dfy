/**
 * The Graph API error classifier: `FacebookRequestException::create` turns a
 * decoded error payload into one of six exception kinds, and every instance
 * answers read-with-default queries about the payload it was built from.
 * The exception subclasses become a `Category`; the shared fields a record.
 */
module FacebookRequestException {
  import opened Wrappers
  import opened Php

  /** One category per exception subclass. */
  datatype Category = Authorization | Server | Throttle | Permission | Client | Other

  /**
   * `isset($data['error'][$key])` together with the value read when it holds:
   * the payload has an `error` array whose entry `key` is present and not null.
   */
  function ErrorEntry(data: Dict, key: string): (r: Option<Value>)
    ensures r.Some? <==> "error" in data && data["error"].Arr? && IsSet(data["error"].entries, key)
    ensures r.Some? ==> r.value == data["error"].entries[key] && !r.value.Null?
  {
    if "error" in data && data["error"].Arr? && IsSet(data["error"].entries, key)
    then Some(data["error"].entries[key])
    else None
  }

  /**
   * The normalisation step of `create`: a payload that carries `code` at top
   * level but no `error.code` is wrapped as `{error: payload}`.
   */
  function Normalise(data: Dict): (r: Dict)
    // after normalising, `error.code` is set exactly when a code was set anywhere
    ensures ErrorEntry(r, "code").Some? <==> ErrorEntry(data, "code").Some? || IsSet(data, "code")
    // and it is the original `error.code`, or else the top-level `code`
    ensures ErrorEntry(data, "code").Some? ==> ErrorEntry(r, "code") == ErrorEntry(data, "code")
    ensures ErrorEntry(data, "code").None? && IsSet(data, "code") ==> ErrorEntry(r, "code") == Some(data["code"])
    // a payload is changed only by wrapping it whole
    ensures r == data || r == map["error" := Arr(data)]
  {
    if ErrorEntry(data, "code").None? && IsSet(data, "code") then map["error" := Arr(data)] else data
  }

  /** The integer error code of a normalised payload; absent when `error.code` is not set. */
  function CodeOf(data: Dict): (r: Option<int>)
    ensures r.Some? <==> ErrorEntry(data, "code").Some? && ErrorEntry(data, "code").value.Int?
    ensures r.Some? ==> ErrorEntry(data, "code") == Some(Int(r.value))
  {
    match ErrorEntry(data, "code")
    case Some(Int(c)) => Some(c)
    case _ => None
  }

  /**
   * The ordered rule chain of `create`. An absent code compares unequal to
   * every constant and fails every range check, so it falls through to Other.
   */
  function Classify(code: Option<int>): (r: Category)
    ensures r == Authorization <==> code.Some? && code.value in {102, 190, 100}
    ensures r == Server <==> code.Some? && code.value in {1, 2}
    ensures r == Throttle <==> code.Some? && code.value in {4, 17, 341}
    ensures r == Permission <==> code.Some? && (code.value == 10 || 200 <= code.value <= 299)
    ensures r == Client <==> code == Some(506)
  {
    match code
    case None => Other
    case Some(c) =>
      if c == 102 || c == 190 || c == 100 then Authorization
      else if c == 1 || c == 2 then Server
      else if c == 4 || c == 17 || c == 341 then Throttle
      else if c == 10 || (c >= 200 && c <= 299) then Permission
      else if c == 506 then Client
      else Other
  }

  /** A failed Graph API request, as `FacebookRequestException` and its subclasses hold it. */
  datatype RequestException = RequestException(
    category: Category,
    message: Value,
    code: Value,
    rawResponse: string,
    responseData: Dict,
    statusCode: int)
  {
    /** The private `get`: `error.<key>` of the stored payload when set, else `default`. */
    function Get(key: string, default: Value): (r: Value)
      ensures ErrorEntry(responseData, key).Some? ==> r == ErrorEntry(responseData, key).value
      ensures ErrorEntry(responseData, key).None? ==> r == default
    {
      ErrorEntry(responseData, key).GetOr(default)
    }

    /** `getSubErrorCode`: `error.error_subcode`, or -1. */
    function SubErrorCode(): (r: Value)
      ensures ErrorEntry(responseData, "error_subcode").Some? ==> r == ErrorEntry(responseData, "error_subcode").value
      ensures ErrorEntry(responseData, "error_subcode").None? ==> r == Int(-1)
    {
      Get("error_subcode", Int(-1))
    }

    /** `getErrorType`: `error.type`, or the empty string. */
    function ErrorType(): (r: Value)
      ensures ErrorEntry(responseData, "type").Some? ==> r == ErrorEntry(responseData, "type").value
      ensures ErrorEntry(responseData, "type").None? ==> r == Str("")
    {
      Get("type", Str(""))
    }
  }

  /**
   * The constructor: the raw body, status code and payload are kept as given,
   * and the exception's message and code are read from `error.message`
   * (default "Unknown Exception") and `error.code` (default -1).
   */
  function NewException(category: Category, raw: string, data: Dict, statusCode: int): (e: RequestException)
    ensures e.category == category && e.rawResponse == raw && e.responseData == data && e.statusCode == statusCode
    ensures ErrorEntry(data, "message").Some? ==> e.message == ErrorEntry(data, "message").value
    ensures ErrorEntry(data, "message").None? ==> e.message == Str("Unknown Exception")
    ensures ErrorEntry(data, "code").Some? ==> e.code == ErrorEntry(data, "code").value
    ensures ErrorEntry(data, "code").None? ==> e.code == Int(-1)
  {
    var e := RequestException(category, Null, Null, raw, data, statusCode);
    e.(message := e.Get("message", Str("Unknown Exception")), code := e.Get("code", Int(-1)))
  }

  /** `create`: normalise the payload, classify its code, build the exception. */
  function Create(raw: string, data: Dict, statusCode: int): (e: RequestException)
    ensures e.responseData == Normalise(data)
    ensures e.rawResponse == raw && e.statusCode == statusCode
  {
    var normalised := Normalise(data);
    NewException(Classify(CodeOf(normalised)), raw, normalised, statusCode)
  }

  /**
   * What `create` decides from: the integer at `error.code` when set, else the
   * integer at top-level `code`; with neither set the exception is Other and
   * its code is -1.
   */
  lemma CreateReadsErrorCodeThenTopLevelCode(raw: string, data: Dict, statusCode: int)
    ensures ErrorEntry(data, "code").Some? ==>
      var c := ErrorEntry(data, "code").value;
      Create(raw, data, statusCode).code == c &&
      Create(raw, data, statusCode).category == Classify(if c.Int? then Some(c.i) else None)
    ensures ErrorEntry(data, "code").None? && IsSet(data, "code") ==>
      var c := data["code"];
      Create(raw, data, statusCode).code == c &&
      Create(raw, data, statusCode).category == Classify(if c.Int? then Some(c.i) else None)
    ensures ErrorEntry(data, "code").None? && !IsSet(data, "code") ==>
      Create(raw, data, statusCode).code == Int(-1) && Create(raw, data, statusCode).category == Other
  {
  }

  /**
   * An unwrapped payload with top-level `code` yields exactly the exception
   * the explicitly wrapped payload yields.
   */
  lemma UnwrappedPayloadCreatesAsWrapped(raw: string, data: Dict, statusCode: int)
    requires ErrorEntry(data, "code").None? && IsSet(data, "code")
    ensures Create(raw, data, statusCode) == Create(raw, map["error" := Arr(data)], statusCode)
    ensures Create(raw, data, statusCode).responseData == map["error" := Arr(data)]
  {
    var wrapped := map["error" := Arr(data)];
    assert ErrorEntry(wrapped, "code").Some?;
  }

  /** A payload that already carries `error.code` is stored unchanged. */
  lemma WrappedPayloadUnchanged(data: Dict)
    requires ErrorEntry(data, "code").Some?
    ensures Normalise(data) == data
  {
  }

  /** Normalising twice is normalising once. */
  lemma NormaliseIdempotent(data: Dict)
    ensures Normalise(Normalise(data)) == Normalise(data)
  {
  }

  // The rule chain as a table: each rule lists exact codes and an inclusive range.

  datatype Rule = Rule(codes: set<int>, low: int, high: int, category: Category)

  predicate Matches(rule: Rule, code: int) {
    code in rule.codes || rule.low <= code <= rule.high
  }

  /** The rules of `create` in source order; an empty range is written 1..0. */
  const RuleTable: seq<Rule> := [
    Rule({102, 190, 100}, 1, 0, Authorization),
    Rule({1, 2}, 1, 0, Server),
    Rule({4, 17, 341}, 1, 0, Throttle),
    Rule({10}, 200, 299, Permission),
    Rule({506}, 1, 0, Client)
  ]

  /** First-match lookup in a rule table; None when no rule matches. */
  function FirstMatch(rules: seq<Rule>, code: int): (r: Option<Category>)
    ensures r.None? <==> forall k :: 0 <= k < |rules| ==> !Matches(rules[k], code)
    ensures r.Some? ==> exists k :: 0 <= k < |rules| && Matches(rules[k], code) && rules[k].category == r.value &&
                                    forall i :: 0 <= i < k ==> !Matches(rules[i], code)
  {
    if rules == [] then None
    else if Matches(rules[0], code) then Some(rules[0].category)
    else
      var r := FirstMatch(rules[1..], code);
      assert r.Some? ==> exists k :: 1 <= k < |rules| && Matches(rules[k], code) && rules[k].category == r.value &&
                                     forall i :: 0 <= i < k ==> !Matches(rules[i], code) by {
        if r.Some? {
          var k :| 0 <= k < |rules[1..]| && Matches(rules[1..][k], code) && rules[1..][k].category == r.value &&
                   forall i :: 0 <= i < k ==> !Matches(rules[1..][i], code);
          assert forall i :: 0 <= i < k + 1 ==> !Matches(rules[i], code) by {
            forall i | 0 <= i < k + 1 ensures !Matches(rules[i], code) {
              if i > 0 { assert rules[i] == rules[1..][i - 1]; }
            }
          }
          assert rules[k + 1] == rules[1..][k];
        }
      }
      r
  }

  /** No code is matched by two different rules of the table. */
  ghost predicate Disjoint(rules: seq<Rule>) {
    forall i, j, c :: 0 <= i < j < |rules| && Matches(rules[i], c) ==> !Matches(rules[j], c)
  }

  lemma RuleTableDisjoint()
    ensures Disjoint(RuleTable)
  {
  }

  /** The rule chain is first-match lookup in RuleTable, with Other as the fallback. */
  lemma ClassifyIsFirstMatch(code: int)
    ensures Classify(Some(code)) == FirstMatch(RuleTable, code).GetOr(Other)
  {
    RuleTableDisjoint();
    match Classify(Some(code))
    case Authorization => FirstMatchFindsTheMatchingRule(RuleTable, code, 0);
    case Server => FirstMatchFindsTheMatchingRule(RuleTable, code, 1);
    case Throttle => FirstMatchFindsTheMatchingRule(RuleTable, code, 2);
    case Permission => FirstMatchFindsTheMatchingRule(RuleTable, code, 3);
    case Client => FirstMatchFindsTheMatchingRule(RuleTable, code, 4);
    case Other =>
      forall k | 0 <= k < |RuleTable| ensures !Matches(RuleTable[k], code) {
      }
  }

  /** In a disjoint table, the rule that matches is the one whose category is found. */
  lemma FirstMatchFindsTheMatchingRule(rules: seq<Rule>, code: int, k: int)
    requires Disjoint(rules)
    requires 0 <= k < |rules| && Matches(rules[k], code)
    ensures FirstMatch(rules, code) == Some(rules[k].category)
  {
  }

  /** Reordering a disjoint rule table does not change any lookup. */
  lemma FirstMatchOrderIrrelevant(rules: seq<Rule>, reordered: seq<Rule>, code: int)
    requires Disjoint(rules)
    requires multiset(reordered) == multiset(rules)
    ensures FirstMatch(reordered, code) == FirstMatch(rules, code)
  {
    if FirstMatch(rules, code).Some? {
      var k :| 0 <= k < |rules| && Matches(rules[k], code) && rules[k].category == FirstMatch(rules, code).value;
      assert rules[k] in multiset(reordered);
      var j :| 0 <= j < |reordered| && reordered[j] == rules[k];
      assert Matches(reordered[j], code);
      var j' :| 0 <= j' < |reordered| && Matches(reordered[j'], code) && reordered[j'].category == FirstMatch(reordered, code).value;
      assert reordered[j'] in multiset(rules);
      var k' :| 0 <= k' < |rules| && rules[k'] == reordered[j'];
      FirstMatchFindsTheMatchingRule(rules, code, k');
    } else {
      forall j | 0 <= j < |reordered| ensures !Matches(reordered[j], code) {
        assert reordered[j] in multiset(rules);
      }
    }
  }

  /** Checking the categories of `create` in any order gives the same classification. */
  lemma ClassifyIgnoresRuleOrder(reordered: seq<Rule>, code: int)
    requires multiset(reordered) == multiset(RuleTable)
    ensures FirstMatch(reordered, code).GetOr(Other) == Classify(Some(code))
  {
    RuleTableDisjoint();
    FirstMatchOrderIrrelevant(RuleTable, reordered, code);
    ClassifyIsFirstMatch(code);
  }

  /** `{"error": {"message": "Boom", "code": 190}}` with status 400. */
  lemma BoomIsAuthorization()
    ensures
      var e := Create("raw", map["error" := Arr(map["message" := Str("Boom"), "code" := Int(190)])], 400);
      e.category == Authorization && e.message == Str("Boom") && e.code == Int(190) &&
      e.SubErrorCode() == Int(-1) && e.ErrorType() == Str("") && e.statusCode == 400
  {
    var inner := map["message" := Str("Boom"), "code" := Int(190)];
    var data := map["error" := Arr(inner)];
    assert ErrorEntry(data, "code") == Some(Int(190));
    assert ErrorEntry(data, "message") == Some(Str("Boom"));
    assert "error_subcode" !in inner && "type" !in inner;
  }
}
