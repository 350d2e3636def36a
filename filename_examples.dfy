/**
 * The file names that the `defaultFileNameGenerator` tests of
 * test/cache.spec.js:11-102 expect, every one of them proved about the model.
 */
module FileNameExamples {
  import opened JsValues
  import opened Strings
  import opened FileNames

  function S(s: string): Value { Prim(Str(s)) }
  function N(n: int): Value { Prim(Num(n)) }
  function B(b: bool): Value { Prim(Bool(b)) }

  lemma PrimitiveNames()
    ensures DefaultFileName([]) == "no-parameters"
    ensures DefaultFileName([S("someString")]) == "someString"
    ensures DefaultFileName([N(545)]) == "545"
    ensures DefaultFileName([B(true)]) == "true"
  {
    assert NatToDecimal(545) == "545";
  }

  lemma PrimitivesJoined()
    ensures DefaultFileName([N(1), S("otherPrimitive"), Prim(Undefined), N(22)])
            == "1__otherPrimitive__undefined__22"
  {
    PrimitiveArgumentNames();
    JoinedPrimitiveNames();
    JoinedPrimitiveNamesHaveNoWhitespace();
    NameOfSeveralArguments([N(1), S("otherPrimitive"), Prim(Undefined), N(22)], "1__otherPrimitive__undefined__22");
  }

  /** When the joined per-argument names hold no whitespace, they are the name. */
  lemma NameOfSeveralArguments(args: seq<Value>, joined: string)
    requires |args| >= 2
    requires Join(SingleFileNames(args), "__") == joined
    requires NoWhitespace(joined)
    ensures DefaultFileName(args) == joined
  {
    DefaultFileNameJoinsArguments(args);
    RemoveWhitespaceKeeps(joined);
  }

  lemma JoinedPrimitiveNamesHaveNoWhitespace()
    ensures NoWhitespace("1__otherPrimitive__undefined__22")
  {
  }

  lemma PrimitiveArgumentNames()
    ensures SingleFileNames([N(1), S("otherPrimitive"), Prim(Undefined), N(22)])
            == ["1", "otherPrimitive", "undefined", "22"]
  {
    var args := [N(1), S("otherPrimitive"), Prim(Undefined), N(22)];
    assert NatToDecimal(22) == "22";
    assert SingleFileNames(args[3..]) == ["22"];
    assert SingleFileNames(args[2..]) == ["undefined", "22"];
    assert SingleFileNames(args[1..]) == ["otherPrimitive", "undefined", "22"];
  }

  lemma JoinedPrimitiveNames()
    ensures Join(["1", "otherPrimitive", "undefined", "22"], "__") == "1__otherPrimitive__undefined__22"
  {
    var names := ["1", "otherPrimitive", "undefined", "22"];
    assert Join(names[2..], "__") == "undefined__22";
    assert Join(names[1..], "__") == "otherPrimitive__undefined__22";
  }

  lemma ArrayNames()
    ensures DefaultFileName([Arr([])]) == "array-0"
    ensures DefaultFileName([Arr([N(1), N(2), N(3), N(4), N(5)])]) == "array-5"
  {
  }

  /** The object `{red: true, green: 55, blue: 'hello'}` the tests use. */
  function Colours(): seq<(string, Value)>
  {
    [("red", B(true)), ("green", N(55)), ("blue", S("hello"))]
  }

  lemma ObjectNames()
    ensures DefaultFileName([Obj(Colours())]) == "blue=hello&green=55&red=true"
  {
    var sorted := [("blue", S("hello")), ("green", N(55)), ("red", B(true))];
    SortedColours();
    assert RetainedMembers(Colours()) == sorted;
    ColourTexts();
  }

  lemma SortedColours()
    ensures SortByKey(Colours()) == [("blue", S("hello")), ("green", N(55)), ("red", B(true))]
  {
    var members := Colours();
    assert KeyLe("green", "red") && KeyLe("blue", "green");
    assert SortByKey(members[2..]) == [("blue", S("hello"))];
    assert SortByKey(members[1..]) == [("blue", S("hello")), ("green", N(55))];
  }

  lemma ColourTexts()
    ensures Join(MemberTexts([("blue", S("hello")), ("green", N(55)), ("red", B(true))]), "&")
            == "blue=hello&green=55&red=true"
  {
    var sorted := [("blue", S("hello")), ("green", N(55)), ("red", B(true))];
    assert NatToDecimal(55) == "55";
    assert MemberText(sorted[0]) == "blue=hello";
    assert MemberText(sorted[1]) == "green=55";
    assert MemberText(sorted[2]) == "red=true";
    assert MemberTexts(sorted) == ["blue=hello", "green=55", "red=true"];
    ColourJoin();
  }

  lemma ColourJoin()
    ensures Join(["blue=hello", "green=55", "red=true"], "&") == "blue=hello&green=55&red=true"
  {
    var texts := ["blue=hello", "green=55", "red=true"];
    assert Join(texts[1..], "&") == "green=55&red=true";
  }

  /** Members beyond the fourth are dropped; nested containers are named by size. */
  lemma NestedObjectName()
    ensures DefaultFileName([Obj(Rainbow())]) == "a=object-2&a2=false&blue=array-4&green=55"
  {
    var m := Rainbow();
    RainbowInKeyOrder();
    SortByKeyOfOrdered(m);
    assert RetainedMembers(m) == m[..4];
    RainbowTexts(m[..4]);
  }

  function Rainbow(): seq<(string, Value)>
  {
    [ ("a", Obj([("red", N(1)), ("green", N(2))])), ("a2", B(false)),
      ("blue", Arr([N(1), N(2), N(3), N(4)])), ("green", N(55)), ("red", B(true)), ("yellow", N(34)) ]
  }

  lemma RainbowInKeyOrder()
    ensures forall i :: 0 <= i < |Rainbow()| - 1 ==> KeyLe(Rainbow()[i].0, Rainbow()[i + 1].0)
  {
    var keys := ["a", "a2", "blue", "green", "red", "yellow"];
    assert forall i :: 0 <= i < 6 ==> Rainbow()[i].0 == keys[i];
    assert KeyLe("a", "a2") && KeyLe("a2", "blue") && KeyLe("blue", "green");
    assert KeyLe("green", "red") && KeyLe("red", "yellow");
  }

  lemma RainbowTexts(kept: seq<(string, Value)>)
    requires kept == Rainbow()[..4]
    ensures Join(MemberTexts(kept), "&") == "a=object-2&a2=false&blue=array-4&green=55"
  {
    assert NatToDecimal(55) == "55";
    assert MemberText(kept[0]) == "a=object-2";
    assert MemberText(kept[1]) == "a2=false";
    assert MemberText(kept[2]) == "blue=array-4";
    assert MemberText(kept[3]) == "green=55";
    assert MemberTexts(kept) == ["a=object-2", "a2=false", "blue=array-4", "green=55"];
    RainbowJoin();
  }

  lemma RainbowJoin()
    ensures Join(["a=object-2", "a2=false", "blue=array-4", "green=55"], "&")
            == "a=object-2&a2=false&blue=array-4&green=55"
  {
    var texts := ["a=object-2", "a2=false", "blue=array-4", "green=55"];
    assert Join(texts[2..], "&") == "blue=array-4&green=55";
    assert Join(texts[1..], "&") == "a2=false&blue=array-4&green=55";
  }

  /** The six-member object `{a: true, a2: false, blue: 'hello', green: 55, red: true, yellow: 34}`. */
  function SixMembers(): seq<(string, Value)>
  {
    [("a", B(true)), ("a2", B(false)), ("blue", S("hello")), ("green", N(55)), ("red", B(true)), ("yellow", N(34))]
  }

  /** Only the first four members by key are named. */
  lemma FirstFourMembersName()
    ensures DefaultFileName([Obj(SixMembers())]) == "a=true&a2=false&blue=hello&green=55"
  {
    var m := SixMembers();
    SixMembersInKeyOrder();
    SortByKeyOfOrdered(m);
    assert RetainedMembers(m) == m[..4];
    SixMembersTexts(m[..4]);
  }

  lemma SixMembersInKeyOrder()
    ensures forall i :: 0 <= i < |SixMembers()| - 1 ==> KeyLe(SixMembers()[i].0, SixMembers()[i + 1].0)
  {
    var keys := ["a", "a2", "blue", "green", "red", "yellow"];
    assert forall i :: 0 <= i < 6 ==> SixMembers()[i].0 == keys[i];
    assert KeyLe("a", "a2") && KeyLe("a2", "blue") && KeyLe("blue", "green");
    assert KeyLe("green", "red") && KeyLe("red", "yellow");
  }

  lemma SixMembersTexts(kept: seq<(string, Value)>)
    requires kept == SixMembers()[..4]
    ensures Join(MemberTexts(kept), "&") == "a=true&a2=false&blue=hello&green=55"
  {
    assert NatToDecimal(55) == "55";
    assert MemberText(kept[0]) == "a=true";
    assert MemberText(kept[1]) == "a2=false";
    assert MemberText(kept[2]) == "blue=hello";
    assert MemberText(kept[3]) == "green=55";
    assert MemberTexts(kept) == ["a=true", "a2=false", "blue=hello", "green=55"];
    SixMembersJoin();
  }

  lemma SixMembersJoin()
    ensures Join(["a=true", "a2=false", "blue=hello", "green=55"], "&") == "a=true&a2=false&blue=hello&green=55"
  {
    var texts := ["a=true", "a2=false", "blue=hello", "green=55"];
    assert Join(texts[2..], "&") == "blue=hello&green=55";
    assert Join(texts[1..], "&") == "a2=false&blue=hello&green=55";
  }

  /** Two object arguments: each object's name, joined with `__`. */
  lemma TwoObjectsName()
    ensures DefaultFileName([Obj(SixMembers()), Obj(Colours())])
            == "a=true&a2=false&blue=hello&green=55__blue=hello&green=55&red=true"
  {
    TwoObjectsParts();
    TwoObjectsLiteral();
  }

  lemma TwoObjectsParts()
    ensures DefaultFileName([Obj(SixMembers()), Obj(Colours())])
            == "a=true&a2=false&blue=hello&green=55" + "__" + "blue=hello&green=55&red=true"
  {
    FirstFourMembersName();
    ObjectNames();
    NamesHaveNoWhitespace();
    TwoNames([Obj(SixMembers()), Obj(Colours())],
             "a=true&a2=false&blue=hello&green=55", "blue=hello&green=55&red=true");
  }

  /** An object, a string with a space, and an object: the space disappears. */
  lemma ObjectStringObjectName()
    ensures DefaultFileName([Obj(SixMembers()), S("Lemmy Kilmister"), Obj(Colours())])
            == "a=true&a2=false&blue=hello&green=55__LemmyKilmister__blue=hello&green=55&red=true"
  {
    ObjectStringObjectParts();
    ObjectStringObjectLiteral();
  }

  lemma ObjectStringObjectParts()
    ensures DefaultFileName([Obj(SixMembers()), S("Lemmy Kilmister"), Obj(Colours())])
            == "a=true&a2=false&blue=hello&green=55" + "__LemmyKilmister__" + "blue=hello&green=55&red=true"
  {
    FirstFourMembersName();
    ObjectNames();
    NamesHaveNoWhitespace();
    LemmySplit();
    SpaceInMiddleName([Obj(SixMembers()), S("Lemmy Kilmister"), Obj(Colours())],
                      "a=true&a2=false&blue=hello&green=55", "Lemmy", "Kilmister", "blue=hello&green=55&red=true");
  }

  /** An array, a string with a space, and an object; the array is named by its length. */
  lemma WhitespaceRemovedWhenJoined()
    ensures DefaultFileName([Arr([N(1), N(2), N(3), N(4), N(5)]), S("Lemmy Kilmister"), Obj(Colours())])
            == "array-5__LemmyKilmister__blue=hello&green=55&red=true"
  {
    ArrayStringObjectParts();
    ArrayStringObjectLiteral();
  }

  lemma ArrayStringObjectParts()
    ensures DefaultFileName([Arr([N(1), N(2), N(3), N(4), N(5)]), S("Lemmy Kilmister"), Obj(Colours())])
            == "array-5" + "__LemmyKilmister__" + "blue=hello&green=55&red=true"
  {
    ArrayNames();
    ObjectNames();
    NamesHaveNoWhitespace();
    LemmySplit();
    SpaceInMiddleName([Arr([N(1), N(2), N(3), N(4), N(5)]), S("Lemmy Kilmister"), Obj(Colours())],
                      "array-5", "Lemmy", "Kilmister", "blue=hello&green=55&red=true");
  }

  /** Two arguments with whitespace-free names `x` and `z` are named `x__z`. */
  lemma TwoNames(args: seq<Value>, x: string, z: string)
    requires |args| == 2
    requires DefaultFileName([args[0]]) == x && DefaultFileName([args[1]]) == z
    requires NoWhitespace(x) && NoWhitespace(z)
    ensures DefaultFileName(args) == x + "__" + z
  {
    assert args[1..] == [args[1]];
    assert NoWhitespace(x + "__" + z);
    RemoveWhitespaceKeeps(x + "__" + z);
  }

  /**
   * Three arguments named `x`, `y1 y2` and `z`, with whitespace only in the
   * one space of the middle name, are named `x__y1y2__z`: the space is gone.
   */
  lemma SpaceInMiddleName(args: seq<Value>, x: string, y1: string, y2: string, z: string)
    requires |args| == 3
    requires DefaultFileName([args[0]]) == x && DefaultFileName([args[1]]) == y1 + " " + y2
    requires DefaultFileName([args[2]]) == z
    requires NoWhitespace(x) && NoWhitespace(y1) && NoWhitespace(y2) && NoWhitespace(z)
    ensures DefaultFileName(args) == x + ("__" + y1 + y2 + "__") + z
  {
    var a, b := x + "__" + y1, y2 + "__" + z;
    ThreeNamesJoined(args, x, y1 + " " + y2, z);
    assert x + "__" + (y1 + " " + y2) + "__" + z == a + " " + b;
    assert NoWhitespace(a) && NoWhitespace(b);
    DefaultFileNameJoinsArguments(args);
    SpaceRemoved(a, b);
    Regroup(x, y1, y2, z);
  }

  /** The per-argument names of three arguments, joined with `__`. */
  lemma ThreeNamesJoined(args: seq<Value>, x: string, y: string, z: string)
    requires |args| == 3
    requires DefaultFileName([args[0]]) == x && DefaultFileName([args[1]]) == y
    requires DefaultFileName([args[2]]) == z
    ensures Join(SingleFileNames(args), "__") == x + "__" + y + "__" + z
  {
    assert SingleFileNames(args[2..]) == [z];
    assert SingleFileNames(args[1..]) == [y, z];
    assert SingleFileNames(args) == [x, y, z];
    assert Join([x, y, z][1..], "__") == y + "__" + z;
  }

  lemma NamesHaveNoWhitespace()
    ensures NoWhitespace("a=true&a2=false&blue=hello&green=55")
    ensures NoWhitespace("blue=hello&green=55&red=true")
    ensures NoWhitespace("array-5") && NoWhitespace("Lemmy") && NoWhitespace("Kilmister")
  {
    FirstFourNameHasNoWhitespace();
    ColoursNameHasNoWhitespace();
  }

  lemma FirstFourNameHasNoWhitespace()
    ensures NoWhitespace("a=true&a2=false&blue=hello&green=55")
  {
  }

  lemma ColoursNameHasNoWhitespace()
    ensures NoWhitespace("blue=hello&green=55&red=true")
  {
  }

  // The lemmas below only break the proofs about literal strings into
  // steps small enough for the solver: they regroup concatenations and
  // spell out literal concatenations. They state nothing about the cache.

  lemma TwoObjectsLiteral()
    ensures "a=true&a2=false&blue=hello&green=55" + "__" + "blue=hello&green=55&red=true"
         == "a=true&a2=false&blue=hello&green=55__blue=hello&green=55&red=true"
  {
  }

  lemma ObjectStringObjectLiteral()
    ensures "a=true&a2=false&blue=hello&green=55" + "__LemmyKilmister__" + "blue=hello&green=55&red=true"
         == "a=true&a2=false&blue=hello&green=55__LemmyKilmister__blue=hello&green=55&red=true"
  {
    assert "a=true&a2=false&blue=hello&green=55" + "__LemmyKilmister__" == "a=true&a2=false&blue=hello&green=55__LemmyKilmister__";
  }

  lemma ArrayStringObjectLiteral()
    ensures "array-5" + "__LemmyKilmister__" + "blue=hello&green=55&red=true"
         == "array-5__LemmyKilmister__blue=hello&green=55&red=true"
  {
    assert "array-5" + "__LemmyKilmister__" == "array-5__LemmyKilmister__";
  }

  lemma Regroup(x: string, y1: string, y2: string, z: string)
    ensures (x + "__" + y1) + (y2 + "__" + z) == x + ("__" + y1 + y2 + "__") + z
  {
  }

  lemma LemmySplit()
    ensures "Lemmy Kilmister" == "Lemmy" + " " + "Kilmister"
    ensures "__" + "Lemmy" + "Kilmister" + "__" == "__LemmyKilmister__"
  {
  }
}
