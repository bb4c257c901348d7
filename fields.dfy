/** Configuration scalars and the "push `key-value` if the field is set" step
    that every encoder repeats.

    A scalar field of the configuration holds a number or a string; a template
    literal renders it and an `if (field)` test reads it with JavaScript
    truthiness (`0` and `""` are falsy), while an `if (field !== undefined)`
    test only asks whether it is there. A `Field` row records one such push:
    its key, whether its test passes, and the rendered value. */
module Fields {

  import opened Wrappers
  import opened Text
  import opened Numbers

  /** A number or string configuration value. */
  datatype Val = Num(n: int) | Str(s: string)

  /** `if (v)`: defined and neither `0` nor `""`. */
  predicate Truthy(v: Option<Val>)
  {
    v.Some? && v.value != Num(0) && v.value != Str("")
  }

  /** `if (s)` for a string field. */
  predicate TruthyStr(v: Option<string>)
  {
    v.Some? && v.value != ""
  }

  /** `${v}` */
  function Show(v: Val): string
  {
    match v
    case Num(n) => IntToString(n)
    case Str(s) => s
  }

  /** The rendered value of a field that may be absent; only used when its test passes. */
  function ShowOr(v: Option<Val>): string
  {
    if v.Some? then Show(v.value) else ""
  }

  function StrOr(v: Option<string>): string
  {
    if v.Some? then v.value else ""
  }

  /** One conditional push: `if (<fires>) parts.push(`<key>-<value>`)`. */
  datatype Field = Field(key: string, fires: bool, value: string)

  function Token(f: Field): string
  {
    f.key + "-" + f.value
  }

  /** The pushes of a run of fields, in the order the fields are written. */
  function EmitAll(fs: seq<Field>): (r: seq<string>)
    ensures |r| <= |fs|
    ensures forall i :: 0 <= i < |r| ==> r[i] != ""
    decreases |fs|
  {
    if fs == [] then []
    else (if fs[0].fires then [Token(fs[0])] else []) + EmitAll(fs[1..])
  }

  function FieldKeys(fs: seq<Field>): (r: seq<string>)
    ensures |r| == |fs|
    ensures forall i :: 0 <= i < |fs| ==> r[i] == fs[i].key
  {
    seq(|fs|, i requires 0 <= i < |fs| => fs[i].key)
  }

  predicate DashFreeKeys(fs: seq<Field>)
  {
    forall i :: 0 <= i < |fs| ==> '-' !in fs[i].key
  }

  /** A token is emitted exactly when it is the token of a field whose test passes. */
  lemma {:induction false} EmitAllTokens(fs: seq<Field>)
    ensures forall t :: t in EmitAll(fs) <==> exists i :: 0 <= i < |fs| && fs[i].fires && t == Token(fs[i])
    decreases |fs|
  {
    if fs != [] {
      EmitAllTokens(fs[1..]);
      forall t | t in EmitAll(fs)
        ensures exists i :: 0 <= i < |fs| && fs[i].fires && t == Token(fs[i])
      {
        var head := if fs[0].fires then [Token(fs[0])] else [];
        assert EmitAll(fs) == head + EmitAll(fs[1..]);
        if !(fs[0].fires && t == Token(fs[0])) {
          assert t in EmitAll(fs[1..]);
          var i :| 0 <= i < |fs[1..]| && fs[1..][i].fires && t == Token(fs[1..][i]);
          assert fs[i + 1] == fs[1..][i];
        }
      }
      forall i | 0 <= i < |fs| && fs[i].fires
        ensures Token(fs[i]) in EmitAll(fs)
      {
        if i > 0 {
          assert fs[1..][i - 1] == fs[i];
        }
      }
    }
  }

  /** Every emitted token starts with the first character of its field's key. */
  lemma EmitAllInitials(fs: seq<Field>, c: char)
    requires forall i :: 0 <= i < |fs| ==> |fs[i].key| > 0 && fs[i].key[0] != c
    ensures forall j :: 0 <= j < |EmitAll(fs)| ==> |EmitAll(fs)[j]| > 0 && EmitAll(fs)[j][0] != c
  {
    EmitAllTokens(fs);
    forall j | 0 <= j < |EmitAll(fs)|
      ensures |EmitAll(fs)[j]| > 0 && EmitAll(fs)[j][0] != c
    {
      assert EmitAll(fs)[j] in EmitAll(fs);
    }
  }

  /** Emitted tokens start with their keys' first characters. */
  lemma EmitAllInitialsIn(fs: seq<Field>, cs: string)
    requires forall i :: 0 <= i < |fs| ==> |fs[i].key| > 0 && fs[i].key[0] in cs
    ensures InitialsIn(EmitAll(fs), cs)
  {
    EmitAllTokens(fs);
    forall j | 0 <= j < |EmitAll(fs)|
      ensures |EmitAll(fs)[j]| > 0 && EmitAll(fs)[j][0] in cs
    {
      assert EmitAll(fs)[j] in EmitAll(fs);
    }
  }

  /** With dash-free keys, every emitted key is a field key. */
  lemma EmitAllKeysWithin(fs: seq<Field>)
    requires DashFreeKeys(fs)
    ensures forall k :: k in Keys(EmitAll(fs)) ==> k in FieldKeys(fs)
  {
    EmitAllTokens(fs);
    var r := EmitAll(fs);
    forall k | k in Keys(r) ensures k in FieldKeys(fs) {
      var j :| 0 <= j < |r| && Keys(r)[j] == k;
      assert r[j] in r;
      var i :| 0 <= i < |fs| && fs[i].fires && r[j] == Token(fs[i]);
      KeyOfDashed(fs[i].key, fs[i].value);
      assert FieldKeys(fs)[i] == k;
    }
  }

  /** The first field's key, when it fires, followed by the keys the rest emit. */
  lemma EmitAllHeadKeys(fs: seq<Field>)
    requires fs != [] && '-' !in fs[0].key
    ensures Keys(EmitAll(fs)) == (if fs[0].fires then [fs[0].key] else []) + Keys(EmitAll(fs[1..]))
  {
    var head := if fs[0].fires then [Token(fs[0])] else [];
    assert EmitAll(fs) == head + EmitAll(fs[1..]);
    KeysAppend(head, EmitAll(fs[1..]));
    KeyOfDashed(fs[0].key, fs[0].value);
  }

  /** The rest of a distinct table is distinct and does not repeat the first key. */
  lemma DistinctTail(fs: seq<Field>)
    requires fs != [] && Distinct(FieldKeys(fs))
    ensures Distinct(FieldKeys(fs[1..]))
    ensures fs[0].key !in FieldKeys(fs[1..])
  {
    var tail := fs[1..];
    assert FieldKeys(tail) == FieldKeys(fs)[1..];
    forall j | 0 <= j < |tail| ensures FieldKeys(tail)[j] != fs[0].key {
      assert FieldKeys(fs)[j + 1] == FieldKeys(tail)[j];
    }
  }

  /** The emitted keys are the field keys in written order with the failing ones left out. */
  lemma {:induction false} EmitAllKeysOrder(fs: seq<Field>)
    requires DashFreeKeys(fs) && Distinct(FieldKeys(fs))
    ensures IsSubseq(Keys(EmitAll(fs)), FieldKeys(fs))
    decreases |fs|
  {
    if fs != [] {
      var tail := fs[1..];
      DistinctTail(fs);
      EmitAllKeysOrder(tail);
      EmitAllHeadKeys(fs);
      EmitAllKeysWithin(tail);
      var ks, a, b := Keys(EmitAll(tail)), Keys(EmitAll(fs)), FieldKeys(fs);
      assert fs[0].key !in ks;
      assert b[0] == fs[0].key && b[1..] == FieldKeys(tail);
      if fs[0].fires {
        assert a == [b[0]] + ks;
        assert a[0] == b[0] && a[1..] == ks;
      } else {
        assert a == ks;
        if ks != [] {
          assert ks[0] in ks;
          assert a[0] != b[0];
        }
      }
    }
  }

  /** A field's key is emitted exactly when its test passes. */
  lemma {:induction false} EmitAllKeyIff(fs: seq<Field>)
    requires DashFreeKeys(fs) && Distinct(FieldKeys(fs))
    ensures forall i :: 0 <= i < |fs| ==> (fs[i].key in Keys(EmitAll(fs)) <==> fs[i].fires)
    decreases |fs|
  {
    if fs != [] {
      var tail := fs[1..];
      DistinctTail(fs);
      EmitAllKeyIff(tail);
      EmitAllHeadKeys(fs);
      EmitAllKeysWithin(tail);
      forall i | 0 <= i < |fs|
        ensures fs[i].key in Keys(EmitAll(fs)) <==> fs[i].fires
      {
        if i > 0 {
          assert tail[i - 1] == fs[i];
          assert FieldKeys(fs)[0] != FieldKeys(fs)[i];
        }
      }
    }
  }

  /** With dash-free, distinct keys: the keys of the emitted tokens are the
      field keys in their written order with the failing ones left out, and a
      key is present exactly when its field's test passes. */
  lemma EmitAllKeys(fs: seq<Field>)
    requires DashFreeKeys(fs) && Distinct(FieldKeys(fs))
    ensures IsSubseq(Keys(EmitAll(fs)), FieldKeys(fs))
    ensures forall k :: k in Keys(EmitAll(fs)) ==> k in FieldKeys(fs)
    ensures forall i :: 0 <= i < |fs| ==> (fs[i].key in Keys(EmitAll(fs)) <==> fs[i].fires)
  {
    EmitAllKeysOrder(fs);
    EmitAllKeysWithin(fs);
    EmitAllKeyIff(fs);
  }

  /** One field of a dash-free, distinct table: its key is among the emitted keys exactly when its test passes. */
  lemma EmitAllKeyAt(fs: seq<Field>, i: nat)
    requires DashFreeKeys(fs) && Distinct(FieldKeys(fs))
    requires i < |fs|
    ensures fs[i].key in Keys(EmitAll(fs)) <==> fs[i].fires
    ensures fs[i].fires ==> Token(fs[i]) in EmitAll(fs)
  {
    EmitAllKeys(fs);
    EmitAllTokens(fs);
  }

  /** A field whose test passes has its token pushed. */
  lemma {:induction false} EmitAllTokenAt(fs: seq<Field>, i: nat)
    requires i < |fs| && fs[i].fires
    ensures Token(fs[i]) in EmitAll(fs)
    decreases i
  {
    if i > 0 {
      EmitAllTokenAt(fs[1..], i - 1);
    }
  }

  /** The token of every field, whether or not its test passes. */
  function Tokens(fs: seq<Field>): (r: seq<string>)
    ensures |r| == |fs|
    ensures forall i :: 0 <= i < |fs| ==> r[i] == Token(fs[i])
  {
    seq(|fs|, i requires 0 <= i < |fs| => Token(fs[i]))
  }

  /** The pushes come in the order the fields are written: the emitted tokens
      are the fields' tokens with the failing ones left out. */
  lemma {:induction false} EmitAllInOrder(fs: seq<Field>)
    ensures IsSubseq(EmitAll(fs), Tokens(fs))
    decreases |fs|
  {
    if fs != [] {
      var tail := fs[1..];
      EmitAllInOrder(tail);
      var ts := Tokens(fs);
      assert ts[1..] == Tokens(tail);
      if fs[0].fires {
        var a := EmitAll(fs);
        assert a == [Token(fs[0])] + EmitAll(tail);
        assert a[0] == ts[0] && a[1..] == EmitAll(tail);
      } else {
        assert EmitAll(fs) == EmitAll(tail);
        SubseqCons(EmitAll(tail), Tokens(tail), ts[0]);
        assert [ts[0]] + Tokens(tail) == ts;
      }
    }
  }

  /** Nothing is pushed exactly when no test passes. */
  lemma {:induction false} EmitAllEmpty(fs: seq<Field>)
    ensures EmitAll(fs) == [] <==> forall i :: 0 <= i < |fs| ==> !fs[i].fires
    decreases |fs|
  {
    if fs != [] {
      EmitAllEmpty(fs[1..]);
      if !fs[0].fires {
        forall i | 1 <= i < |fs| ensures fs[i] == fs[1..][i - 1] { }
      }
    }
  }

}
