/**
 * The bashifier's own test cases, proved about the model: two dicts whose
 * joined lines are given exactly, and two dicts nesting a container inside a
 * dict, which are refused with a SerializerError.
 */
module BashifyExamples {
  import opened Wrappers
  import opened Errors
  import opened Strings
  import opened Dicts
  import opened Values
  import opened Babashka

  /** One more top-level entry appends its lines to what came before. */
  lemma BashifyAppend(config: Dict<Value>, key: string, value: Value)
    requires BashifySpec(config).Success? && EntryLines(key, value).Success?
    ensures BashifySpec(config + [(key, value)]) == Success(BashifySpec(config).value + EntryLines(key, value).value)
  {
    var c := config + [(key, value)];
    assert c[..|c| - 1] == config;
  }

  /** `b: 1` becomes `b=1`. */
  lemma IntEntry(key: string)
    ensures EntryLines(key, VInt(1)) == Success([key + "=1"])
  {
    assert "0123456789"[1] == '1';
    assert Scalar(VInt(1)) == "1";
    EntryFormats(key, VInt(1));
    assert key + "=" + "1" == key + "=1";
  }

  /** A word without surrounding whitespace, which strip leaves alone. */
  predicate Word(s: string) {
    |s| > 0 && !IsSpace(s[0]) && !IsSpace(s[|s| - 1])
  }

  /** Three entries that each serialize give their lines in order. */
  lemma BashifyThree(k1: string, v1: Value, k2: string, v2: Value, k3: string, v3: Value)
    requires EntryLines(k1, v1).Success? && EntryLines(k2, v2).Success? && EntryLines(k3, v3).Success?
    ensures BashifySpec([(k1, v1), (k2, v2), (k3, v3)])
         == Success(EntryLines(k1, v1).value + EntryLines(k2, v2).value + EntryLines(k3, v3).value)
  {
    BashifyAppend([], k1, v1);
    assert [] + [(k1, v1)] == [(k1, v1)];
    BashifyAppend([(k1, v1)], k2, v2);
    assert [(k1, v1)] + [(k2, v2)] == [(k1, v1), (k2, v2)];
    BashifyAppend([(k1, v1), (k2, v2)], k3, v3);
    assert [(k1, v1), (k2, v2)] + [(k3, v3)] == [(k1, v1), (k2, v2), (k3, v3)];
    assert [] + EntryLines(k1, v1).value == EntryLines(k1, v1).value;
  }

  /** `a: "b"` becomes `a="b"`. */
  lemma StringEntry(key: string, s: string)
    requires Word(s)
    ensures EntryLines(key, VStr(s)) == Success([key + "=" + Quote(s)])
  {
    EntryFormats(key, VStr(s));
  }

  /** `d: {"q": "r"}` becomes `declare -A d` and `d["q"]="r"`. */
  lemma DictEntry(key: string, k: string, s: string)
    requires Word(k) && Word(s)
    ensures EntryLines(key, VDict([(k, VStr(s))])) == Success(["declare -A " + key, key + "[" + Quote(k) + "]=" + Quote(s)])
  {
    var es := [(k, VStr(s))];
    var line := key + "[" + Quote(k) + "]=" + Quote(s);
    assert es[..|es| - 1] == [];
    assert Trim(k) == k && Trim(s) == s;
    assert DictLine(key, k, VStr(s)) == Success(line);
    assert DictLines(key, es) == Success([] + [line]);
    assert ["declare -A " + key] + ([] + [line]) == ["declare -A " + key, line];
  }

  const Simple: Dict<Value> := [("a", VStr("b")), ("b", VInt(1)), ("d", VDict([("q", VStr("r"))]))]

  lemma QuotedLiteral()
    ensures "a" + "=" + Quote("b") == "a=\"b\""
  {
  }

  lemma AssignmentLiteral()
    ensures "d" + "[" + Quote("q") + "]=" + Quote("r") == "d[\"q\"]=\"r\""
  {
  }

  /** Four lines joined with newlines. */
  lemma JoinFour(a: string, b: string, c: string, d: string)
    ensures Join([a, b, c, d], "\n") == a + "\n" + b + "\n" + c + "\n" + d
  {
    assert [a, b, c, d] == [a] + [b, c, d];
    JoinCons(a, [b, c, d], "\n");
    assert [b, c, d] == [b] + [c, d];
    JoinCons(b, [c, d], "\n");
    assert [c, d] == [c] + [d];
    JoinCons(c, [d], "\n");
  }

  /** test_bashify: a string, an integer and a nested dict, line by line. */
  lemma SimpleBashify()
    ensures BashifySpec(Simple) == Success(["a=\"b\"", "b=1", "declare -A d", "d[\"q\"]=\"r\""])
  {
    EntryA();
    EntryB();
    EntryD();
    BashifyThree("a", VStr("b"), "b", VInt(1), "d", VDict([("q", VStr("r"))]));
    FourLines("a=\"b\"", "b=1", "declare -A d", "d[\"q\"]=\"r\"");
  }

  lemma FourLines(l1: string, l2: string, l3: string, l4: string)
    ensures [l1] + [l2] + [l3, l4] == [l1, l2, l3, l4]
  {
  }

  lemma EntryA()
    ensures EntryLines("a", VStr("b")) == Success(["a=\"b\""])
  {
    QuotedLiteral();
    StringEntry("a", "b");
  }

  lemma EntryB()
    ensures EntryLines("b", VInt(1)) == Success(["b=1"])
  {
    IntEntry("b");
    assert "b" + "=1" == "b=1";
  }

  lemma DeclareLiteral()
    ensures "declare -A " + "d" == "declare -A d"
  {
  }

  lemma EntryD()
    ensures EntryLines("d", VDict([("q", VStr("r"))])) == Success(["declare -A d", "d[\"q\"]=\"r\""])
  {
    assert Word("q") && Word("r");
    DictEntry("d", "q", "r");
    DeclareLiteral();
    AssignmentLiteral();
  }

  /** test_bashify: the lines joined with newlines are the expected text. */
  lemma SimpleText()
    ensures BashifySpec(Simple).Success?
    ensures Join(BashifySpec(Simple).value, "\n") == "a=\"b\"" + "\n" + "b=1" + "\n" + "declare -A d" + "\n" + "d[\"q\"]=\"r\""
  {
    SimpleBashify();
    JoinFour("a=\"b\"", "b=1", "declare -A d", "d[\"q\"]=\"r\"");
  }

  /** A word without surrounding whitespace comes back from the shell as it is. */
  lemma EscapedWord(w: string)
    requires Word(w)
    ensures Escaped(VStr(w)) == Success(w)
  {
  }

  /** One more word in a list appends its quoted escape. */
  lemma ListWordsAppend(items: seq<Value>, w: string, t: string)
    requires ListWords(items).Success? && Escaped(VStr(w)) == Success(t)
    ensures ListWords(items + [VStr(w)]) == Success(ListWords(items).value + [Quote(t)])
  {
    var xs := items + [VStr(w)];
    assert xs[..|xs| - 1] == items;
  }

  /** A list of three strings gives their three quoted escapes. */
  lemma ListThree(a: string, b: string, c: string, ta: string, tb: string, tc: string)
    requires Escaped(VStr(a)) == Success(ta) && Escaped(VStr(b)) == Success(tb) && Escaped(VStr(c)) == Success(tc)
    ensures ListWords([VStr(a), VStr(b), VStr(c)]) == Success([Quote(ta), Quote(tb), Quote(tc)])
  {
    var zero: seq<Value> := [];
    var one := zero + [VStr(a)];
    var two := one + [VStr(b)];
    var three := two + [VStr(c)];
    assert ListWords(zero) == Success([]);
    ListWordsAppend(zero, a, ta);
    assert ListWords(one).value == [Quote(ta)];
    ListWordsAppend(one, b, tb);
    assert ListWords(two).value == [Quote(ta), Quote(tb)];
    ListWordsAppend(two, c, tc);
    assert ListWords(three).value == [Quote(ta), Quote(tb), Quote(tc)];
    assert three == [VStr(a), VStr(b), VStr(c)];
  }

  lemma JoinThree(x: string, y: string, z: string, sep: string)
    ensures Join([x, y, z], sep) == x + sep + y + sep + z
  {
    assert [x, y, z] == [x] + [y, z];
    JoinCons(x, [y, z], sep);
    assert [y, z] == [y] + [z];
    JoinCons(y, [z], sep);
  }

  const Complex: Dict<Value> :=
    [("a", VStr("b")), ("b", VInt(1)), ("c", VStr("b b b")), ("d", VDict([("q", VStr("r"))])),
     ("foo", VList([VStr("bar"), VStr("baz"), VStr("bar baz")]))]

  lemma EntryC()
    ensures EntryLines("c", VStr("b b b")) == Success(["c=\"b b b\""])
  {
    StringEntry("c", "b b b");
    assert "c" + "=" + Quote("b b b") == "c=\"b b b\"";
  }

  /** A list entry is its words joined by spaces, in parentheses. */
  lemma ListLine(key: string, items: seq<Value>, ws: seq<string>)
    requires ListWords(items) == Success(ws)
    ensures EntryLines(key, VList(items)) == Success([key + "=(" + Join(ws, " ") + ")"])
  {
  }

  lemma FooLiteral()
    ensures "foo" + "=(" + (Quote("bar") + " " + Quote("baz") + " " + Quote("bar baz")) + ")" == "foo=(\"bar\" \"baz\" \"bar baz\")"
  {
  }

  /** The words of test_bashify_complex's list, each quoted. */
  lemma FooWords()
    ensures ListWords([VStr("bar"), VStr("baz"), VStr("bar baz")]) == Success([Quote("bar"), Quote("baz"), Quote("bar baz")])
  {
    WordsThree("bar", "baz", "bar baz");
  }

  /** Three words without surrounding whitespace, each quoted as they are. */
  lemma WordsThree(a: string, b: string, c: string)
    requires Word(a) && Word(b) && Word(c)
    ensures ListWords([VStr(a), VStr(b), VStr(c)]) == Success([Quote(a), Quote(b), Quote(c)])
  {
    EscapedWord(a);
    EscapedWord(b);
    EscapedWord(c);
    ListThree(a, b, c, a, b, c);
  }

  lemma EntryFoo()
    ensures EntryLines("foo", VList([VStr("bar"), VStr("baz"), VStr("bar baz")])) == Success(["foo=(\"bar\" \"baz\" \"bar baz\")"])
  {
    FooWords();
    ListLine("foo", [VStr("bar"), VStr("baz"), VStr("bar baz")], [Quote("bar"), Quote("baz"), Quote("bar baz")]);
    JoinThree(Quote("bar"), Quote("baz"), Quote("bar baz"), " ");
    FooLiteral();
  }

  /** Five entries that each serialize give their lines in order. */
  lemma BashifyFive(k1: string, v1: Value, k2: string, v2: Value, k3: string, v3: Value, k4: string, v4: Value, k5: string, v5: Value)
    requires EntryLines(k1, v1).Success? && EntryLines(k2, v2).Success? && EntryLines(k3, v3).Success?
    requires EntryLines(k4, v4).Success? && EntryLines(k5, v5).Success?
    ensures BashifySpec([(k1, v1), (k2, v2), (k3, v3), (k4, v4), (k5, v5)])
         == Success(EntryLines(k1, v1).value + EntryLines(k2, v2).value + EntryLines(k3, v3).value
                    + EntryLines(k4, v4).value + EntryLines(k5, v5).value)
  {
    BashifyThree(k1, v1, k2, v2, k3, v3);
    var three := [(k1, v1), (k2, v2), (k3, v3)];
    BashifyAppend(three, k4, v4);
    assert three + [(k4, v4)] == [(k1, v1), (k2, v2), (k3, v3), (k4, v4)];
    BashifyAppend(three + [(k4, v4)], k5, v5);
    assert three + [(k4, v4)] + [(k5, v5)] == [(k1, v1), (k2, v2), (k3, v3), (k4, v4), (k5, v5)];
  }

  lemma SixLines(l1: string, l2: string, l3: string, l4: string, l5: string, l6: string)
    ensures [l1] + [l2] + [l3] + [l4, l5] + [l6] == [l1, l2, l3, l4, l5, l6]
  {
  }

  /** test_bashify_complex: a string with spaces and a list join the simple case, line by line. */
  lemma ComplexBashify()
    ensures BashifySpec(Complex)
         == Success(["a=\"b\"", "b=1", "c=\"b b b\"", "declare -A d", "d[\"q\"]=\"r\"", "foo=(\"bar\" \"baz\" \"bar baz\")"])
  {
    EntryA();
    EntryB();
    EntryC();
    EntryD();
    EntryFoo();
    BashifyFive("a", VStr("b"), "b", VInt(1), "c", VStr("b b b"), "d", VDict([("q", VStr("r"))]),
                "foo", VList([VStr("bar"), VStr("baz"), VStr("bar baz")]));
    SixLines("a=\"b\"", "b=1", "c=\"b b b\"", "declare -A d", "d[\"q\"]=\"r\"", "foo=(\"bar\" \"baz\" \"bar baz\")");
  }

  /** test_bashify_dict_exception: a dict inside a dict is refused. */
  lemma DictException()
    ensures BashifySpec([("a", VDict([("b", VDict([]))]))]) == Failure(SerializerError)
  {
    var config := [("a", VDict([("b", VDict([]))]))];
    assert config[..0] == [];
    NestedSerializerError(config, 0, 0);
  }

  /** test_bashify_list_exception: a list inside a dict is refused. */
  lemma ListException()
    ensures BashifySpec([("a", VDict([("b", VList([]))]))]) == Failure(SerializerError)
  {
    var config := [("a", VDict([("b", VList([]))]))];
    assert config[..0] == [];
    NestedSerializerError(config, 0, 0);
  }
}
