/**
 * Cache file names derived from call arguments (lib/cache.js, `arrayName`,
 * `objectName`, `defaultFileNameGenerator` and `chooseFileNameGenerator`).
 */
module FileNames {
  import opened Wrappers
  import opened JsValues
  import opened Strings

  /** The name used when the cached function is called without arguments. */
  const NoParameters: string := "no-parameters"

  /** At most this many object members take part in a file name. */
  const MaxObjectPairs: nat := 4

  function Min(a: nat, b: nat): nat { if a <= b then a else b }

  /** `arrayName`: `array-` followed by the decimal length, without leading zeros, and nothing else of the array. */
  function ArrayName(elems: seq<Value>): (r: string)
    ensures |r| > 6 && r[..6] == "array-"
    ensures var digits := r[6..];
      && (forall i :: 0 <= i < |digits| ==> '0' <= digits[i] <= '9')
      && DecimalValue(digits) == |elems|
      && (|digits| > 1 ==> digits[0] != '0')
  {
    DecimalRoundTrip(|elems|);
    assert ("array-" + NatToDecimal(|elems|))[6..] == NatToDecimal(|elems|);
    "array-" + NatToDecimal(|elems|)
  }

  /** `objectName`: `object-` followed by the decimal number of keys, without leading zeros, and nothing else of the object. */
  function ObjectName(fields: seq<(string, Value)>): (r: string)
    ensures |r| > 7 && r[..7] == "object-"
    ensures var digits := r[7..];
      && (forall i :: 0 <= i < |digits| ==> '0' <= digits[i] <= '9')
      && DecimalValue(digits) == |fields|
      && (|digits| > 1 ==> digits[0] != '0')
  {
    DecimalRoundTrip(|fields|);
    assert ("object-" + NatToDecimal(|fields|))[7..] == NatToDecimal(|fields|);
    "object-" + NatToDecimal(|fields|)
  }

  /**
   * The text a member value contributes to `[k, v].join('=')`: nested arrays
   * and objects are first replaced by their names, and `join` writes `null`
   * and `undefined` as the empty string.
   */
  function MemberValueText(v: Value): string
  {
    match v
    case Arr(elems) => ArrayName(elems)
    case Obj(fields) => ObjectName(fields)
    case Prim(p) => if p.Null? || p.Undefined? then "" else PrimitiveToString(p)
  }

  /** One rendered member, `key=value`. */
  function MemberText(member: (string, Value)): string
  {
    member.0 + "=" + MemberValueText(member.1)
  }

  /** Members in ascending key order. */
  ghost predicate SortedByKey(members: seq<(string, Value)>)
  {
    forall i, j :: 0 <= i < j < |members| ==> KeyLe(members[i].0, members[j].0)
  }

  /**
   * Inserts `m` into `sorted` before the first member whose key is not
   * smaller; `m` comes before members with an equal key, which keeps the
   * sort stable when `m` preceded them in the input.
   */
  function InsertByKey(m: (string, Value), sorted: seq<(string, Value)>): (r: seq<(string, Value)>)
    ensures multiset(r) == multiset(sorted) + multiset{m}
    ensures |r| == |sorted| + 1
  {
    if sorted == [] || KeyLe(m.0, sorted[0].0) then [m] + sorted
    else
      assert sorted == [sorted[0]] + sorted[1..];
      [sorted[0]] + InsertByKey(m, sorted[1..])
  }

  /** `_.sortBy(pairs, ([k]) => k)`: a stable sort of the members by key. */
  function SortByKey(members: seq<(string, Value)>): (r: seq<(string, Value)>)
    ensures multiset(r) == multiset(members)
    ensures |r| == |members|
  {
    if members == [] then []
    else
      assert members == [members[0]] + members[1..];
      InsertByKey(members[0], SortByKey(members[1..]))
  }

  lemma {:induction false} InsertByKeySorted(m: (string, Value), sorted: seq<(string, Value)>)
    requires SortedByKey(sorted)
    ensures SortedByKey(InsertByKey(m, sorted))
  {
    var r := InsertByKey(m, sorted);
    if sorted == [] || KeyLe(m.0, sorted[0].0) {
      forall i, j | 0 <= i < j < |r| ensures KeyLe(r[i].0, r[j].0) {
        if i == 0 && j > 1 {
          KeyLeTransitive(m.0, sorted[0].0, sorted[j - 1].0);
        }
      }
    } else {
      var first := sorted[0];
      var rest := InsertByKey(m, sorted[1..]);
      InsertByKeySorted(m, sorted[1..]);
      KeyLeTotal(m.0, first.0);
      assert r == [first] + rest;
      forall j | 0 <= j < |rest| ensures KeyLe(first.0, rest[j].0) {
        assert rest[j] in multiset(rest);
        if rest[j] != m {
          assert rest[j] in multiset(sorted[1..]);
          var k :| 0 <= k < |sorted[1..]| && sorted[1..][k] == rest[j];
          assert sorted[k + 1] == rest[j];
        }
      }
    }
  }

  /** The result of `SortByKey` is in ascending key order. */
  lemma {:induction false} SortByKeySorted(members: seq<(string, Value)>)
    ensures SortedByKey(SortByKey(members))
  {
    if members != [] {
      SortByKeySorted(members[1..]);
      InsertByKeySorted(members[0], SortByKey(members[1..]));
    }
  }

  /** Members already in key order are left as they are by the sort. */
  lemma {:induction false} SortByKeyOfOrdered(m: seq<(string, Value)>)
    requires forall i :: 0 <= i < |m| - 1 ==> KeyLe(m[i].0, m[i + 1].0)
    ensures SortByKey(m) == m
  {
    if m != [] {
      SortByKeyOfOrdered(m[1..]);
      assert m == [m[0]] + m[1..];
    }
  }

  /** `.slice(0, 4)` after the sort: the members that take part in the name. */
  function RetainedMembers(members: seq<(string, Value)>): seq<(string, Value)>
  {
    var sorted := SortByKey(members);
    sorted[..Min(MaxObjectPairs, |sorted|)]
  }

  function MemberTexts(members: seq<(string, Value)>): (r: seq<string>)
    ensures |r| == |members|
    ensures forall i :: 0 <= i < |members| ==> r[i] == MemberText(members[i])
  {
    if members == [] then [] else [MemberText(members[0])] + MemberTexts(members[1..])
  }

  /** The name of a single object argument: its first four members by key, `k=v` joined with `&`. */
  function ObjectFileName(members: seq<(string, Value)>): string
  {
    Join(MemberTexts(RetainedMembers(members)), "&")
  }

  /** The name `defaultFileNameGenerator` gives a single argument. */
  function SingleFileName(v: Value): string
  {
    match v
    case Arr(elems) => ArrayName(elems)
    case Obj(members) => ObjectFileName(members)
    case Prim(p) => PrimitiveToString(p)
  }

  /** `defaultFileNameGenerator(...args)`. */
  function DefaultFileName(args: seq<Value>): string
  {
    if |args| == 0 then NoParameters
    else if |args| == 1 then SingleFileName(args[0])
    else RemoveWhitespace(SingleFileName(args[0]) + "__" + DefaultFileName(args[1..]))
  }

  /** The names of the arguments taken one at a time. */
  function SingleFileNames(args: seq<Value>): (r: seq<string>)
    ensures |r| == |args|
  {
    if args == [] then [] else [SingleFileName(args[0])] + SingleFileNames(args[1..])
  }

  /**
   * The object name keeps exactly the `min(4, n)` members with the smallest
   * keys, in key order: truncation happens after sorting, so every member
   * left out has a key no smaller than every member kept.
   */
  lemma ObjectFileNameKeepsSmallestKeys(members: seq<(string, Value)>)
    ensures var kept := RetainedMembers(members);
      && |kept| == Min(MaxObjectPairs, |members|)
      && SortedByKey(kept)
      && multiset(kept) <= multiset(members)
      && forall m, d :: m in kept && d in multiset(members) - multiset(kept) ==> KeyLe(m.0, d.0)
  {
    var sorted := SortByKey(members);
    var n := Min(MaxObjectPairs, |sorted|);
    SortByKeySorted(members);
    assert sorted == sorted[..n] + sorted[n..];
    assert multiset(members) == multiset(sorted[..n]) + multiset(sorted[n..]);
    assert multiset(members) - multiset(sorted[..n]) == multiset(sorted[n..]);
    SortedPrefixBeforeSuffix(sorted, n);
  }

  /** In key-ordered members, everything before a cut has a key no larger than everything after it. */
  lemma SortedPrefixBeforeSuffix(sorted: seq<(string, Value)>, n: nat)
    requires SortedByKey(sorted) && n <= |sorted|
    ensures SortedByKey(sorted[..n])
    ensures forall m, d :: m in sorted[..n] && d in multiset(sorted[n..]) ==> KeyLe(m.0, d.0)
  {
    forall m, d | m in sorted[..n] && d in multiset(sorted[n..])
      ensures KeyLe(m.0, d.0)
    {
      var i :| 0 <= i < n && sorted[..n][i] == m;
      var j :| 0 <= j < |sorted[n..]| && sorted[n..][j] == d;
      assert sorted[i] == m && sorted[n + j] == d;
    }
  }

  /**
   * When no key and no member text contains `&`, the object name splits on
   * `&` into exactly `min(4, n)` segments.
   */
  lemma ObjectFileNameSegments(members: seq<(string, Value)>)
    requires forall i :: 0 <= i < |members| ==> '&' !in MemberText(members[i])
    ensures |members| == 0 ==> ObjectFileName(members) == ""
    ensures |members| > 0 ==> Count('&', ObjectFileName(members)) + 1 == Min(MaxObjectPairs, |members|)
  {
    var kept := RetainedMembers(members);
    var texts := MemberTexts(kept);
    ObjectFileNameKeepsSmallestKeys(members);
    if |members| > 0 {
      forall i | 0 <= i < |texts| ensures '&' !in texts[i] {
        assert kept[i] in multiset(members);
        var k :| 0 <= k < |members| && members[k] == kept[i];
      }
      JoinSeparatorCount(texts, '&');
    }
  }

  /**
   * With two or more arguments the name is the per-argument names joined
   * with `__`, with all whitespace removed.
   */
  lemma {:induction false} DefaultFileNameJoinsArguments(args: seq<Value>)
    requires |args| >= 2
    ensures DefaultFileName(args) == RemoveWhitespace(Join(SingleFileNames(args), "__"))
    ensures NoWhitespace(DefaultFileName(args))
  {
    var head := SingleFileName(args[0]);
    var names := SingleFileNames(args);
    assert names[1..] == SingleFileNames(args[1..]);
    if |args| == 2 {
      assert names[1..] == [SingleFileName(args[1])];
    } else {
      var tail := Join(names[1..], "__");
      DefaultFileNameJoinsArguments(args[1..]);
      calc {
        DefaultFileName(args);
        RemoveWhitespace(head + "__" + RemoveWhitespace(tail));
        { RemoveWhitespaceAppend(head + "__", RemoveWhitespace(tail)); }
        RemoveWhitespace(head + "__") + RemoveWhitespace(RemoveWhitespace(tail));
        { RemoveWhitespaceIdempotent(tail); RemoveWhitespaceAppend(head + "__", tail); }
        RemoveWhitespace(head + "__" + tail);
      }
    }
  }

  /**
   * The cases of `defaultFileNameGenerator` for zero and one argument:
   * a fixed name, the array length, the object members, or `String(x)`
   * with any whitespace kept.
   */
  lemma SingleArgumentNames(v: Value)
    ensures DefaultFileName([]) == "no-parameters"
    ensures DefaultFileName([v]) == SingleFileName(v)
    ensures v.Arr? ==> DefaultFileName([v]) == "array-" + NatToDecimal(|v.elems|)
    ensures v.Obj? ==> DefaultFileName([v]) == Join(MemberTexts(RetainedMembers(v.fields)), "&")
    ensures v.Prim? ==> DefaultFileName([v]) == PrimitiveToString(v.p)
    ensures DefaultFileName([Prim(Undefined)]) == "undefined"
    ensures DefaultFileName([Obj([])]) == ""
  {
  }

  /**
   * Array contents never reach the name: two arrays of equal length give
   * the same name, so distinct arguments may share a cache file.
   */
  lemma ArrayNameIgnoresContents(a: seq<Value>, b: seq<Value>)
    requires |a| == |b|
    ensures DefaultFileName([Arr(a)]) == DefaultFileName([Arr(b)])
    ensures DefaultFileName([Arr([])]) == "array-0"
  {
  }

  /** How the file name of one call is chosen (`chooseFileNameGenerator`'s options). */
  datatype NameStrategy = NameStrategy(fileNameGenerator: Option<seq<Value> -> string>, uuidFileName: Value)

  /**
   * The name `chooseFileNameGenerator(strategy)(...args)` produces;
   * `freshName` is what `uuid.v4()` returns on this call.
   */
  function FileNameFor(strategy: NameStrategy, args: seq<Value>, freshName: string): string
  {
    if Truthy(strategy.uuidFileName) then freshName
    else if strategy.fileNameGenerator.Some? then strategy.fileNameGenerator.value(args)
    else DefaultFileName(args)
  }

  /**
   * Precedence of the strategies: a truthy `uuidFileName` ignores the
   * arguments and any custom generator; otherwise a custom generator's
   * output is used unchanged; otherwise the default name is used.
   */
  lemma FileNamePrecedence(strategy: NameStrategy, args: seq<Value>, otherArgs: seq<Value>, freshName: string)
    ensures Truthy(strategy.uuidFileName) ==>
      && FileNameFor(strategy, args, freshName) == freshName
      && FileNameFor(strategy, args, freshName) == FileNameFor(strategy, otherArgs, freshName)
    ensures !Truthy(strategy.uuidFileName) && strategy.fileNameGenerator.Some? ==>
      FileNameFor(strategy, args, freshName) == strategy.fileNameGenerator.value(args)
    ensures !Truthy(strategy.uuidFileName) && strategy.fileNameGenerator.None? ==>
      FileNameFor(strategy, args, freshName) == DefaultFileName(args)
  {
  }
}
