/** A BigQuery STRUCT constant under construction: an insertion-ordered map from field
    name to an already rendered SQL value, turned into `STRUCT(v1 as k1,v2 as k2,...)`. */
module BigQueryStruct {
  import opened Common
  import opened ConversionUtil

  /** The entries of a `LinkedHashMap<String, String>`, in insertion order. */
  type Fields = seq<(string, string)>

  /** A map never holds two entries for one key. */
  ghost predicate UniqueKeys(f: Fields) {
    forall i, j :: 0 <= i < j < |f| ==> f[i].0 != f[j].0
  }

  /** `get(name)`: the value stored under name, if any. */
  function Lookup(f: Fields, name: string): Option<string> {
    if f == [] then None
    else if f[0].0 == name then Some(f[0].1)
    else Lookup(f[1..], name)
  }

  /** `put(name, value)` on a LinkedHashMap: an existing key keeps its position and
      gets the new value; a new key goes to the end. */
  function Put(f: Fields, name: string, value: string): Fields {
    if f == [] then [(name, value)]
    else if f[0].0 == name then [(name, value)] + f[1..]
    else [f[0]] + Put(f[1..], name, value)
  }

  lemma {:induction false} LookupFinds(f: Fields, k: nat)
    requires UniqueKeys(f) && k < |f|
    ensures Lookup(f, f[k].0) == Some(f[k].1)
  {
    if k > 0 {
      assert f[1..][k - 1] == f[k];
      LookupFinds(f[1..], k - 1);
    }
  }

  lemma {:induction false} LookupMissing(f: Fields, name: string)
    requires name !in Firsts(f)
    ensures Lookup(f, name) == None
  {
    if f != [] {
      assert f[0].0 == Firsts(f)[0];
      assert Firsts(f[1..]) == Firsts(f)[1..];
      LookupMissing(f[1..], name);
    }
  }

  /** After a put, the key reads back the new value and every other key reads as before. */
  lemma {:induction false} PutThenLookup(f: Fields, name: string, value: string, other: string)
    ensures Lookup(Put(f, name, value), name) == Some(value)
    ensures other != name ==> Lookup(Put(f, name, value), other) == Lookup(f, other)
  {
    if f != [] && f[0].0 != name {
      PutThenLookup(f[1..], name, value, other);
    }
  }

  /** Re-adding a name that is present replaces its value in place. */
  lemma {:induction false} PutExisting(f: Fields, name: string, value: string, k: nat)
    requires UniqueKeys(f) && k < |f| && f[k].0 == name
    ensures Put(f, name, value) == f[k := (name, value)]
  {
    if k > 0 {
      assert f[0].0 != name;
      PutExisting(f[1..], name, value, k - 1);
      assert f[k := (name, value)] == [f[0]] + f[1..][k - 1 := (name, value)];
    }
  }

  /** Adding a name that is absent appends it after every existing field. */
  lemma {:induction false} PutNew(f: Fields, name: string, value: string)
    requires name !in Firsts(f)
    ensures Put(f, name, value) == f + [(name, value)]
  {
    if f != [] {
      assert f[0].0 == Firsts(f)[0];
      assert Firsts(f[1..]) == Firsts(f)[1..];
      PutNew(f[1..], name, value);
      assert f == [f[0]] + f[1..];
    }
  }

  lemma {:induction false} PutKeepsKeysUnique(f: Fields, name: string, value: string)
    requires UniqueKeys(f)
    ensures UniqueKeys(Put(f, name, value))
  {
    if name in Firsts(f) {
      var k :| 0 <= k < |f| && Firsts(f)[k] == name;
      PutExisting(f, name, value, k);
    } else {
      PutNew(f, name, value);
      forall i | 0 <= i < |f| ensures f[i].0 != name {
        assert Firsts(f)[i] == f[i].0;
      }
    }
  }

  // ----- string literals -----

  const QUOTE: char := '\''
  const BACKSLASH: char := '\\'

  /** `value.replace("'", "\\'")`: every quote gets a backslash in front of it. */
  function Escape(value: string): string {
    if value == [] then []
    else Escape(value[..|value| - 1]) + (if value[|value| - 1] == QUOTE then [BACKSLASH, QUOTE] else [value[|value| - 1]])
  }

  /** Deletes the backslash immediately before each quote. */
  function Unescape(text: string): string {
    if text == [] then []
    else if |text| >= 2 && text[|text| - 1] == QUOTE && text[|text| - 2] == BACKSLASH then Unescape(text[..|text| - 2]) + [QUOTE]
    else Unescape(text[..|text| - 1]) + [text[|text| - 1]]
  }

  /** A SQL string literal: `NULL` for null, otherwise the escaped value in quotes. */
  function StringLiteral(value: Option<string>): string {
    match value
    case None => "NULL"
    case Some(v) => [QUOTE] + Escape(v) + [QUOTE]
  }

  lemma {:induction false} EscapeLength(value: string)
    ensures |Escape(value)| == |value| + CountChar(value, QUOTE)
  {
    if value != [] {
      EscapeLength(value[..|value| - 1]);
    }
  }

  lemma UnescapeEscapedQuote(text: string)
    ensures Unescape(text + [BACKSLASH, QUOTE]) == Unescape(text) + [QUOTE]
  {
    var t := text + [BACKSLASH, QUOTE];
    assert t[..|t| - 2] == text;
  }

  lemma UnescapeOther(text: string, c: char)
    requires c != QUOTE
    ensures Unescape(text + [c]) == Unescape(text) + [c]
  {
    var t := text + [c];
    assert t[..|t| - 1] == text;
  }

  lemma {:induction false} UnescapeEscape(value: string)
    ensures Unescape(Escape(value)) == value
  {
    if value != [] {
      var init, last := value[..|value| - 1], value[|value| - 1];
      UnescapeEscape(init);
      if last == QUOTE {
        UnescapeEscapedQuote(Escape(init));
      } else {
        UnescapeOther(Escape(init), last);
      }
      assert value == init + [last];
    }
  }

  /** The literal of a present string is quoted, one character longer than the value for
      each quote it escapes, and its body unescapes back to the value. */
  lemma StringLiteralOfValue(value: string)
    ensures var lit := StringLiteral(Some(value));
      |lit| == |value| + 2 + CountChar(value, QUOTE) &&
      lit[0] == QUOTE && lit[|lit| - 1] == QUOTE &&
      Unescape(lit[1..|lit| - 1]) == value
  {
    EscapeLength(value);
    UnescapeEscape(value);
    var lit := StringLiteral(Some(value));
    assert lit[1..|lit| - 1] == Escape(value);
  }

  /** A timestamp value: `TIMESTAMP('<formatted instant>')`. */
  function TimestampLiteral(t: Instant): string {
    "TIMESTAMP('" + ConvertToTimestamp(Some(t)).value + "')"
  }

  // ----- the STRUCT constant -----

  function FieldItem(entry: (string, string)): string {
    entry.1 + " as " + entry.0
  }

  function FieldItems(f: Fields): (items: seq<string>)
    ensures |items| == |f|
  {
    seq(|f|, i requires 0 <= i < |f| => FieldItem(f[i]))
  }

  /** `STRUCT(` + the fields' `value as name`, comma separated, in insertion order + `)`. */
  function StructConstant(f: Fields): string {
    "STRUCT(" + Join(",", FieldItems(f)) + ")"
  }

  /** The fields after `addString(name, value)`: a null value changes nothing. */
  function WithString(f: Fields, name: string, value: Option<string>): Fields {
    if value.Some? then Put(f, name, StringLiteral(value)) else f
  }

  /** The fields after `addTimestamp(name, instant)`: a null instant changes nothing. */
  function WithTimestamp(f: Fields, name: string, instant: Option<Instant>): Fields {
    if instant.Some? then Put(f, name, TimestampLiteral(instant.value)) else f
  }

  class Struct {
    var fields: Fields

    ghost predicate Valid()
      reads this
    {
      UniqueKeys(fields)
    }

    constructor ()
      ensures Valid() && fields == []
    {
      fields := [];
    }

    /** Stores the quoted, escaped value under name; a null value changes nothing.
        Returns this struct, for chaining. */
    method AddString(name: string, value: Option<string>) returns (self: Struct)
      requires Valid()
      modifies this
      ensures self == this && Valid()
      ensures fields == WithString(old(fields), name, value)
    {
      if value.Some? {
        PutKeepsKeysUnique(fields, name, StringLiteral(value));
        fields := Put(fields, name, StringLiteral(value));
      }
      self := this;
    }

    /** Stores `TIMESTAMP('...')` under name; a null instant changes nothing. */
    method AddTimestamp(name: string, instant: Option<Instant>) returns (self: Struct)
      requires Valid()
      modifies this
      ensures self == this && Valid()
      ensures fields == WithTimestamp(old(fields), name, instant)
    {
      if instant.Some? {
        var literal := "TIMESTAMP('" + ConvertToTimestamp(instant).value + "')";
        PutKeepsKeysUnique(fields, name, literal);
        fields := Put(fields, name, literal);
      }
      self := this;
    }

    /** Renders the struct, separating fields with a comma after the first one. */
    method ToStructConstant() returns (result: string)
      ensures result == StructConstant(fields)
    {
      result := "STRUCT(";
      var firstField := true;
      var i := 0;
      while i < |fields|
        invariant 0 <= i <= |fields|
        invariant firstField == (i == 0)
        invariant result == "STRUCT(" + Join(",", FieldItems(fields)[..i])
      {
        ghost var before := result;
        if !firstField {
          result := result + ",";
        }
        result := result + fields[i].1 + " as " + fields[i].0;
        firstField := false;
        AppendField(fields, i, before);
        i := i + 1;
      }
      assert FieldItems(fields)[..i] == FieldItems(fields);
      result := result + ")";
    }
  }

  /** One round of the rendering loop appends the next field's item, after a comma
      unless it is the first. */
  lemma AppendField(f: Fields, i: nat, before: string)
    requires i < |f| && before == "STRUCT(" + Join(",", FieldItems(f)[..i])
    ensures (if i == 0 then before else before + ",") + f[i].1 + " as " + f[i].0
      == "STRUCT(" + Join(",", FieldItems(f)[..i + 1])
  {
    JoinAppend(",", FieldItems(f)[..i], FieldItem(f[i]));
    assert FieldItems(f)[..i + 1] == FieldItems(f)[..i] + [FieldItem(f[i])];
  }

  /** The quote in the unit test's value gets a backslash in front of it. */
  lemma EscapeExample()
    ensures StringLiteral(Some("Poor man's test")) == "'Poor man\\'s test'"
  {
    EscapeExampleBody();
    var body := "Poor man\\'s test";
    var lit := [QUOTE] + body + [QUOTE];
    var expected := "'Poor man\\'s test'";
    assert |lit| == |expected|;
    forall i | 0 <= i < |lit| ensures lit[i] == expected[i] {
      if 0 < i < |lit| - 1 {
        assert lit[i] == body[i - 1];
      }
    }
  }

  lemma EscapeExampleBody()
    ensures Escape("Poor man's test") == "Poor man\\'s test"
  {
    var v := "Poor man's test";
    EscapeNoQuotes(v, 9);
    assert v[..9][..8] == "Poor man";
    EscapeNoQuotes("Poor man", 0);
    assert Escape(v[..9]) == Escape("Poor man") + "\\'";
    var e := "Poor man" + "\\'" + v[9..];
    var expected := "Poor man\\'s test";
    forall i | 0 <= i < |e| ensures e[i] == expected[i] { }
  }

  /** The two string fields of the unit test render as the test expects. */
  lemma AddStringExample()
    ensures StructConstant(Put(Put([], "abc", StringLiteral(Some("xyz"))), "dce", StringLiteral(Some("Poor man's test"))))
      == "STRUCT('xyz' as abc,'Poor man\\'s test' as dce)"
  {
    ExampleFields();
    ExampleConstant();
  }

  lemma ExampleFields()
    ensures Put(Put([], "abc", StringLiteral(Some("xyz"))), "dce", StringLiteral(Some("Poor man's test")))
      == [("abc", "'xyz'"), ("dce", "'Poor man\\'s test'")]
  {
    assert StringLiteral(Some("xyz")) == "'xyz'" by {
      EscapeNoQuotes("xyz", 0);
      assert "xyz"[..0] == [];
    }
    EscapeExample();
    assert "abc"[0] != "dce"[0];
  }

  lemma ExampleConstant()
    ensures StructConstant([("abc", "'xyz'"), ("dce", "'Poor man\\'s test'")])
      == "STRUCT('xyz' as abc,'Poor man\\'s test' as dce)"
  {
    var a, b := "'xyz'", "'Poor man\\'s test'";
    var f := [("abc", a), ("dce", b)];
    var items := FieldItems(f);
    assert items == [a + " as " + "abc", b + " as " + "dce"];
    assert items[..1] == [a + " as " + "abc"];
    assert Join(",", items) == Join(",", items[..1]) + "," + items[1];
    var text := "STRUCT(" + (a + " as " + "abc" + "," + (b + " as " + "dce")) + ")";
    assert StructConstant(f) == text;
    ExampleText();
  }

  lemma ExampleText()
    ensures "STRUCT(" + ("'xyz'" + " as " + "abc" + "," + ("'Poor man\\'s test'" + " as " + "dce")) + ")"
      == "STRUCT('xyz' as abc,'Poor man\\'s test' as dce)"
  {
    var text := "STRUCT(" + ("'xyz'" + " as " + "abc" + "," + ("'Poor man\\'s test'" + " as " + "dce")) + ")";
    var expected := "STRUCT('xyz' as abc,'Poor man\\'s test' as dce)";
    forall i | 0 <= i < |text| ensures text[i] == expected[i] { }
  }

  /** A suffix without quotes is copied unchanged. */
  lemma {:induction false} EscapeNoQuotes(value: string, k: nat)
    requires k <= |value|
    requires forall i :: k <= i < |value| ==> value[i] != QUOTE
    ensures Escape(value) == Escape(value[..k]) + value[k..]
  {
    if |value| > k {
      var init := value[..|value| - 1];
      assert init[..k] == value[..k];
      EscapeNoQuotes(init, k);
      assert value[k..] == init[k..] + [value[|value| - 1]];
    } else {
      assert value[..k] == value;
    }
  }
}
