/** Query-string suffixes as the list views build them: a sequence of
    key/value parameters rendered as "&k1=v1&k2=v2…", and the parser that
    reads such a suffix back. */
module Query {
  import opened Wrappers
  import opened Text
  import opened Seqs

  datatype Param = Param(key: string, value: string)

  /** One filter field of a view: its query key, the raw form value whose
      truthiness decides whether it is sent, and the text that is sent (the
      raw value itself, or its URI encoding). */
  datatype Field = Field(key: string, raw: string, sent: string)

  function Pair(p: Param): string
  {
    p.key + "=" + p.value
  }

  function Pairs(ps: seq<Param>): (r: seq<string>)
    ensures |r| == |ps|
    ensures forall i :: 0 <= i < |ps| ==> r[i] == Pair(ps[i])
  {
    if |ps| == 0 then [] else [Pair(ps[0])] + Pairs(ps[1..])
  }

  /** `params.length > 0 ? "&" + params.join("&") : ""`. */
  function Render(ps: seq<Param>): string
  {
    if |ps| == 0 then "" else "&" + Join(Pairs(ps), '&')
  }

  /** The legacy spelling: every pair written as "&k=v", one after the other. */
  function Prefixed(ps: seq<Param>): string
  {
    if |ps| == 0 then "" else "&" + Pair(ps[0]) + Prefixed(ps[1..])
  }

  /** The legacy spelling one pair at a time: "&", the key, "=", the value, then the rest. */
  lemma PrefixedHead(p: Param, rest: seq<Param>)
    ensures Prefixed([p] + rest) == "&" + p.key + "=" + p.value + Prefixed(rest)
  {
    assert ([p] + rest)[0] == p && ([p] + rest)[1..] == rest;
  }

  /** Joining with "&" behind a leading "&" is the same text as prefixing every pair. */
  lemma {:induction false} RenderIsPrefixed(ps: seq<Param>)
    ensures Render(ps) == Prefixed(ps)
  {
    if |ps| > 1 {
      RenderIsPrefixed(ps[1..]);
      assert Pairs(ps)[1..] == Pairs(ps[1..]);
    }
  }

  /** What one field contributes: its parameter when the raw value is non-empty. */
  function Pushed(f: Field): seq<Param>
  {
    if f.raw == "" then [] else [Param(f.key, f.sent)]
  }

  /** The parameters a builder pushes: fields with a non-empty raw value, in order. */
  function Present(fs: seq<Field>): (ps: seq<Param>)
    ensures |ps| == 0 <==> forall i :: 0 <= i < |fs| ==> fs[i].raw == ""
    ensures |ps| <= |fs|
  {
    if |fs| == 0 then []
    else
      var rest := Present(fs[1..]);
      assert forall i :: 1 <= i < |fs| ==> fs[i] == fs[1..][i - 1];
      Pushed(fs[0]) + rest
  }

  lemma {:induction false} PresentAppend(a: seq<Field>, b: seq<Field>)
    ensures Present(a + b) == Present(a) + Present(b)
  {
    if |a| == 0 {
      assert a + b == b;
    } else {
      var ab := a + b;
      assert ab[0] == a[0];
      assert ab[1..] == a[1..] + b;
      PresentAppend(a[1..], b);
    }
  }

  lemma PresentOfEmpty(fs: seq<Field>)
    requires forall i :: 0 <= i < |fs| ==> fs[i].raw == ""
    ensures Present(fs) == []
  {
  }

  /** A filter link: "" exactly when every field is empty, otherwise a suffix
      starting with "&". */
  function BuildLink(fs: seq<Field>): (link: string)
    ensures link == "" <==> forall i :: 0 <= i < |fs| ==> fs[i].raw == ""
    ensures link != "" ==> link[0] == '&'
  {
    Render(Present(fs))
  }

  /** Reads "k=v": the key runs up to the first "=", the value is the rest. */
  function ParsePair(t: string): Param
  {
    if |t| == 0 then Param("", "")
    else if t[0] == '=' then Param("", t[1..])
    else
      var p := ParsePair(t[1..]);
      Param([t[0]] + p.key, p.value)
  }

  function ParseAll(ts: seq<string>): (ps: seq<Param>)
    ensures |ps| == |ts|
    ensures forall i :: 0 <= i < |ts| ==> ps[i] == ParsePair(ts[i])
  {
    if |ts| == 0 then [] else [ParsePair(ts[0])] + ParseAll(ts[1..])
  }

  /** Reads a suffix "&k1=v1&k2=v2…" back into its parameters. */
  function Parse(s: string): seq<Param>
  {
    if |s| == 0 then [] else ParseAll(Split(s[1..], '&'))
  }

  /** Parameters that survive the round trip: no "&" anywhere, no "=" in a key. */
  predicate Safe(ps: seq<Param>)
  {
    forall i :: 0 <= i < |ps| ==> '&' !in ps[i].key && '&' !in ps[i].value && '=' !in ps[i].key
  }

  lemma {:induction false} ParsePairOfPair(k: string, v: string)
    requires '=' !in k
    ensures ParsePair(k + "=" + v) == Param(k, v)
  {
    if |k| == 0 {
      assert k + "=" + v == ['='] + v;
      assert (['='] + v)[1..] == v;
    } else {
      ParsePairOfPair(k[1..], v);
      assert (k + "=" + v)[1..] == k[1..] + "=" + v;
      assert [k[0]] + k[1..] == k;
    }
  }

  lemma SafeAppend(a: seq<Param>, b: seq<Param>)
    requires Safe(a) && Safe(b)
    ensures Safe(a + b)
  {
    forall i | 0 <= i < |a + b|
      ensures '&' !in (a + b)[i].key && '&' !in (a + b)[i].value && '=' !in (a + b)[i].key
    {
      if i < |a| { assert (a + b)[i] == a[i]; } else { assert (a + b)[i] == b[i - |a|]; }
    }
  }

  /** Parsing a rendered suffix gives back the parameters that were rendered. */
  lemma {:induction false} ParseRender(ps: seq<Param>)
    requires Safe(ps)
    ensures Parse(Render(ps)) == ps
  {
    if |ps| > 0 {
      var pairs := Pairs(ps);
      forall i | 0 <= i < |pairs| ensures '&' !in pairs[i] {
        assert pairs[i] == ps[i].key + "=" + ps[i].value;
      }
      SplitJoin(pairs, '&');
      assert Render(ps)[1..] == Join(pairs, '&');
      var parsed := ParseAll(pairs);
      forall i | 0 <= i < |ps| ensures parsed[i] == ps[i] {
        ParsePairOfPair(ps[i].key, ps[i].value);
      }
    }
  }

  /** The legacy links, written pair by pair, read back the same way. */
  lemma ParsePrefixed(ps: seq<Param>)
    requires Safe(ps)
    ensures Parse(Prefixed(ps)) == ps
  {
    RenderIsPrefixed(ps);
    ParseRender(ps);
  }

  /** Nothing is escaped: a value holding "&k2=v2" renders exactly like a
      second parameter. */
  lemma RenderSplice(k: string, x: string, k2: string, v2: string)
    ensures Render([Param(k, x + "&" + k2 + "=" + v2)]) == Render([Param(k, x), Param(k2, v2)])
  {
    var one := Pair(Param(k, x + "&" + k2 + "=" + v2));
    var p0, p1 := Pair(Param(k, x)), Pair(Param(k2, v2));
    assert Pairs([Param(k, x + "&" + k2 + "=" + v2)]) == [one];
    assert Pairs([Param(k, x), Param(k2, v2)]) == [p0, p1];
    assert Join([p0, p1], '&') == p0 + ['&'] + p1;
    assert one == p0 + ['&'] + p1;
  }

  /** The value of the first parameter named `k`, if any. */
  function Lookup(ps: seq<Param>, k: string): Option<string>
  {
    if |ps| == 0 then None
    else if ps[0].key == k then Some(ps[0].value)
    else Lookup(ps[1..], k)
  }

  function Keys(ps: seq<Param>): (ks: seq<string>)
    ensures |ks| == |ps|
    ensures forall i :: 0 <= i < |ps| ==> ks[i] == ps[i].key
  {
    if |ps| == 0 then [] else [ps[0].key] + Keys(ps[1..])
  }

  /** A key is looked up in vain exactly when no parameter carries it. */
  lemma {:induction false} LookupNoneIff(ps: seq<Param>, k: string)
    ensures Lookup(ps, k).None? <==> k !in Keys(ps)
  {
    if |ps| > 0 {
      LookupNoneIff(ps[1..], k);
      assert Keys(ps) == [ps[0].key] + Keys(ps[1..]);
    }
  }

  function FieldKeys(fs: seq<Field>): (ks: seq<string>)
    ensures |ks| == |fs|
    ensures forall i :: 0 <= i < |fs| ==> ks[i] == fs[i].key
  {
    if |fs| == 0 then [] else [fs[0].key] + FieldKeys(fs[1..])
  }

  lemma {:induction false} PresentKeysFromFields(fs: seq<Field>)
    ensures forall j :: 0 <= j < |Present(fs)| ==> Present(fs)[j].key in FieldKeys(fs)
  {
    if |fs| > 0 {
      PresentKeysFromFields(fs[1..]);
      assert FieldKeys(fs) == [fs[0].key] + FieldKeys(fs[1..]);
    }
  }

  lemma {:induction false} PresentOrdered(fs: seq<Field>)
    requires Distinct(FieldKeys(fs))
    ensures Subsequence(Keys(Present(fs)), FieldKeys(fs))
  {
    if |fs| > 0 {
      var tail := FieldKeys(fs[1..]);
      assert FieldKeys(fs) == [fs[0].key] + tail;
      assert Distinct(tail) by {
        forall i, j | 0 <= i < j < |tail| ensures tail[i] != tail[j] {
          assert tail[i] == FieldKeys(fs)[i + 1] && tail[j] == FieldKeys(fs)[j + 1];
        }
      }
      PresentOrdered(fs[1..]);
      var rest := Keys(Present(fs[1..]));
      if fs[0].raw == "" {
        assert Present(fs) == Present(fs[1..]);
        if |rest| > 0 {
          PresentKeysFromFields(fs[1..]);
          assert rest[0] in tail;
          assert rest[0] != fs[0].key;
        }
      } else {
        assert Keys(Present(fs)) == [fs[0].key] + rest;
      }
    }
  }

  lemma {:induction false} LookupAbsent(fs: seq<Field>, k: string)
    requires k !in FieldKeys(fs)
    ensures Lookup(Present(fs), k) == None
  {
    if |fs| > 0 {
      assert FieldKeys(fs) == [fs[0].key] + FieldKeys(fs[1..]);
      LookupAbsent(fs[1..], k);
      var rest := Present(fs[1..]);
      if fs[0].raw == "" {
        assert Present(fs) == rest;
      } else {
        var ps := [Param(fs[0].key, fs[0].sent)] + rest;
        assert Present(fs) == ps;
        assert ps[0].key != k && ps[1..] == rest;
      }
    }
  }

  lemma {:induction false} PresentLookup(fs: seq<Field>, i: int)
    requires Distinct(FieldKeys(fs))
    requires 0 <= i < |fs|
    ensures Lookup(Present(fs), fs[i].key) == if fs[i].raw == "" then None else Some(fs[i].sent)
  {
    var tail := FieldKeys(fs[1..]);
    assert FieldKeys(fs) == [fs[0].key] + tail;
    if i == 0 {
      if fs[0].raw == "" {
        assert fs[0].key !in tail by {
          forall j | 0 <= j < |tail| ensures tail[j] != fs[0].key {
            assert tail[j] == FieldKeys(fs)[j + 1];
          }
        }
        LookupAbsent(fs[1..], fs[0].key);
        assert Present(fs) == Present(fs[1..]);
      }
    } else {
      assert Distinct(tail) by {
        forall a, b | 0 <= a < b < |tail| ensures tail[a] != tail[b] {
          assert tail[a] == FieldKeys(fs)[a + 1] && tail[b] == FieldKeys(fs)[b + 1];
        }
      }
      assert fs[i] == fs[1..][i - 1];
      PresentLookup(fs[1..], i - 1);
      assert fs[0].key != fs[i].key by {
        assert FieldKeys(fs)[0] == fs[0].key && FieldKeys(fs)[i] == fs[i].key;
      }
      var rest := Present(fs[1..]);
      if fs[0].raw == "" {
        assert Present(fs) == rest;
      } else {
        var ps := [Param(fs[0].key, fs[0].sent)] + rest;
        assert Present(fs) == ps;
        assert ps[0].key != fs[i].key && ps[1..] == rest;
      }
    }
  }

  /** What a field contributes to its link: nothing when its raw value is
      empty, otherwise its sent text. */
  function Sent(fd: Field): Option<string>
  {
    if fd.raw == "" then None else Some(fd.sent)
  }

  /** Fields whose keys and sent values survive the round trip. */
  predicate SafeFields(fs: seq<Field>)
  {
    forall i :: 0 <= i < |fs| ==> '&' !in fs[i].key && '&' !in fs[i].sent && '=' !in fs[i].key
  }

  /** A key holding neither separator. */
  predicate CleanKey(k: string)
  {
    forall i :: 0 <= i < |k| ==> k[i] != '&' && k[i] != '='
  }

  /** Keys that neither split a pair nor end one early. */
  predicate SafeKeys(ks: seq<string>)
  {
    forall i :: 0 <= i < |ks| ==> CleanKey(ks[i])
  }

  lemma SafeFieldsOf(fs: seq<Field>)
    requires forall i :: 0 <= i < |fs| ==> CleanKey(fs[i].key) && '&' !in fs[i].sent
    ensures SafeFields(fs)
  {
    forall i | 0 <= i < |fs|
      ensures '&' !in fs[i].key && '&' !in fs[i].sent && '=' !in fs[i].key
    {
      CleanKeyHasNoSeparator(fs[i].key);
    }
  }

  lemma CleanKeyHasNoSeparator(k: string)
    requires CleanKey(k)
    ensures '&' !in k && '=' !in k
  {
  }

  /** What the server reads from a filter link: the keys come in the fields'
      order, and a field's key carries its sent value exactly when its raw
      value is non-empty. */
  lemma {:induction false} LinkDecodes(fs: seq<Field>)
    requires Distinct(FieldKeys(fs))
    requires SafeFields(fs)
    ensures Subsequence(Keys(Parse(BuildLink(fs))), FieldKeys(fs))
    ensures forall i :: 0 <= i < |fs| ==> Lookup(Parse(BuildLink(fs)), fs[i].key) == Sent(fs[i])
  {
    var ps := Present(fs);
    PresentSafe(fs);
    ParseRender(ps);
    assert Parse(BuildLink(fs)) == ps;
    PresentOrdered(fs);
    forall i | 0 <= i < |fs|
      ensures Lookup(ps, fs[i].key) == Sent(fs[i])
    {
      PresentLookup(fs, i);
    }
  }

  lemma {:induction false} PresentSafe(fs: seq<Field>)
    requires SafeFields(fs)
    ensures Safe(Present(fs))
  {
    if |fs| > 0 {
      assert SafeFields(fs[1..]) by {
        forall i | 0 <= i < |fs[1..]| ensures '&' !in fs[1..][i].key && '&' !in fs[1..][i].sent && '=' !in fs[1..][i].key {
          assert fs[1..][i] == fs[i + 1];
        }
      }
      PresentSafe(fs[1..]);
    }
  }
}
