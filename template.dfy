/**
 * Command templating: the placeholder substitution applied to every command
 * string before it is handed to the shell (src/lib.rs:176-187).
 *
 * A substitution map is modelled as a sequence of (key, value) pairs in the
 * order the map yields them; Rust's `HashMap` leaves that order unspecified.
 */
module Template {
  import opened Results

  type Substitutions = seq<(string, string)>

  /** `key` occurs in `s` at index `i`. */
  predicate OccursAt(s: string, key: string, i: int)
  {
    0 <= i && i + |key| <= |s| && s[i..i + |key|] == key
  }

  /** `key` occurs somewhere in `s` (the empty key occurs everywhere). */
  predicate Contains(s: string, key: string)
  {
    exists i | 0 <= i <= |s| :: OccursAt(s, key, i)
  }

  /**
   * Rust's `str::replace(key, value)`: the leftmost, non-overlapping
   * occurrences of `key` are replaced by `value`, scanning left to right;
   * inserted text is never rescanned. An empty key matches at every char
   * boundary, so `value` is inserted before each character and at the end.
   */
  function Replace(s: string, key: string, value: string): (r: string)
    ensures |value| <= |key| ==> |r| <= |s|
    ensures |value| == |key| ==> |r| == |s|
    decreases |s|
  {
    if key == [] then
      if s == [] then value else value + [s[0]] + Replace(s[1..], key, value)
    else if s == [] then []
    else if key <= s then value + Replace(s[|key|..], key, value)
    else [s[0]] + Replace(s[1..], key, value)
  }

  /** A string in which the key does not occur is left unchanged. */
  lemma {:induction false} ReplaceAbsent(s: string, key: string, value: string)
    requires !Contains(s, key)
    ensures Replace(s, key, value) == s
  {
    assert OccursAt(s, [], 0);
    if s != [] {
      assert !OccursAt(s, key, 0);
      forall i | OccursAt(s[1..], key, i)
        ensures OccursAt(s, key, i + 1)
      {
        assert s[1..][i..i + |key|] == s[i + 1..i + 1 + |key|];
      }
      ReplaceAbsent(s[1..], key, value);
    }
  }

  /**
   * Replacing in a concatenation replaces in each part, provided no
   * occurrence of the key can straddle the seam: the character on one side
   * of it is not in the key.
   */
  lemma {:induction false} ReplaceConcat(a: string, t: string, key: string, value: string)
    requires key != []
    requires a == [] || t == [] || a[|a| - 1] !in key || t[0] !in key
    ensures Replace(a + t, key, value) == Replace(a, key, value) + Replace(t, key, value)
    decreases |a|
  {
    if a == [] {
      assert a + t == t;
    } else if key <= a {
      assert key <= a + t;
      assert (a + t)[|key|..] == a[|key|..] + t;
      ReplaceConcat(a[|key|..], t, key, value);
    } else {
      KeyStaysLeft(a, t, key);
      assert (a + t)[1..] == a[1..] + t;
      ReplaceConcat(a[1..], t, key, value);
    }
  }

  /** A key that does not start `a` cannot start `a + t` when it cannot straddle the seam. */
  lemma KeyStaysLeft(a: string, t: string, key: string)
    requires a != [] && !(key <= a)
    requires t == [] || a[|a| - 1] !in key || t[0] !in key
    ensures !(key <= a + t)
  {
    if |key| <= |a| {
      assert (a + t)[..|key|] == a[..|key|];
    } else if t != [] {
      assert key[|a| - 1] != a[|a| - 1] || key[|a|] != t[0];
    }
  }

  /**
   * A key without spaces is replaced part by part in `pre + mid + post` when
   * `pre` ends and `post` starts with a space (or is empty).
   */
  lemma ReplaceAround(pre: string, mid: string, post: string, key: string, value: string)
    requires key != [] && ' ' !in key
    requires pre == [] || pre[|pre| - 1] == ' '
    requires post == [] || post[0] == ' '
    ensures Replace(pre + mid + post, key, value)
         == Replace(pre, key, value) + Replace(mid, key, value) + Replace(post, key, value)
  {
    assert pre + mid + post == pre + (mid + post);
    ReplaceConcat(pre, mid + post, key, value);
    ReplaceConcat(mid, post, key, value);
  }

  /** A leading space is kept by replacing a key without spaces. */
  lemma ReplaceAfterSpace(b: string, key: string, value: string)
    requires key != [] && ' ' !in key
    ensures Replace(" " + b, key, value) == " " + Replace(b, key, value)
  {
    assert key[0] != ' ';
    assert (" " + b)[1..] == b;
  }

  /** `ReplaceAround` with the result of each part given. */
  lemma FillAround(pre: string, mid: string, post: string, key: string, value: string, mid': string, post': string)
    requires key != [] && ' ' !in key
    requires pre == [] || pre[|pre| - 1] == ' '
    requires post == [] || post[0] == ' '
    requires Replace(pre, key, value) == pre && Replace(mid, key, value) == mid' && Replace(post, key, value) == post'
    ensures Replace(pre + mid + post, key, value) == pre + mid' + post'
  {
    ReplaceAround(pre, mid, post, key, value);
  }

  /**
   * `replace_all` on `pre + k1 + " " + k2`, first key first: the first pass
   * puts `v1` in place of `k1`, and the second replaces `k2` both where it
   * stands and wherever it occurs in `v1`.
   */
  lemma SpacedKeysInOrder(t: string, pre: string, k1: string, v1: string, k2: string, v2: string)
    requires k1 != [] && ' ' !in k1 && k2 != [] && ' ' !in k2
    requires pre == [] || pre[|pre| - 1] == ' '
    requires Replace(pre, k1, v1) == pre && Replace(pre, k2, v2) == pre
    requires Replace(k1, k1, v1) == v1 && Replace(k2, k1, v1) == k2 && Replace(k2, k2, v2) == v2
    requires t == pre + k1 + (" " + k2)
    ensures ReplaceInOrder(t, [(k1, v1), (k2, v2)]) == pre + Replace(v1, k2, v2) + (" " + v2)
  {
    ReplaceInOrderPair(t, (k1, v1), (k2, v2));
    ReplaceAfterSpace(k2, k1, v1);
    FillAround(pre, k1, " " + k2, k1, v1, v1, " " + k2);
    ReplaceAfterSpace(k2, k2, v2);
    FillAround(pre, v1, " " + k2, k2, v2, Replace(v1, k2, v2), " " + v2);
  }

  /**
   * The same template, second key first: the first pass puts `v2` in place
   * of `k2`, and the second replaces `k1` both where it stands and wherever
   * it occurs in `v2`.
   */
  lemma SpacedKeysReversed(t: string, pre: string, k1: string, v1: string, k2: string, v2: string)
    requires k1 != [] && ' ' !in k1 && k2 != [] && ' ' !in k2
    requires pre == [] || pre[|pre| - 1] == ' '
    requires Replace(pre, k1, v1) == pre && Replace(pre, k2, v2) == pre
    requires Replace(k1, k2, v2) == k1 && Replace(k2, k2, v2) == v2 && Replace(k1, k1, v1) == v1
    requires t == pre + k1 + (" " + k2)
    ensures ReplaceInOrder(t, [(k2, v2), (k1, v1)]) == pre + v1 + (" " + Replace(v2, k1, v1))
  {
    ReplaceInOrderPair(t, (k2, v2), (k1, v1));
    ReplaceAfterSpace(k2, k2, v2);
    FillAround(pre, k1, " " + k2, k2, v2, k1, " " + v2);
    ReplaceAfterSpace(v2, k1, v1);
    FillAround(pre, k1, " " + v2, k1, v1, v1, " " + Replace(v2, k1, v1));
  }

  /** A key occurring in neither part, and unable to straddle the seam, does not occur in the concatenation. */
  lemma ContainsConcat(a: string, t: string, key: string)
    requires key != []
    requires a == [] || t == [] || a[|a| - 1] !in key || t[0] !in key
    requires !Contains(a, key) && !Contains(t, key)
    ensures !Contains(a + t, key)
  {
    var s := a + t;
    forall i | 0 <= i <= |s|
      ensures !OccursAt(s, key, i)
    {
      if i + |key| <= |a| {
        assert s[i..i + |key|] == a[i..i + |key|];
        assert !OccursAt(a, key, i);
      } else if |a| <= i && i + |key| <= |s| {
        var j := i - |a|;
        assert s[i..i + |key|] == t[j..j + |key|];
        assert !OccursAt(t, key, j);
      } else if i + |key| <= |s| {
        var w := s[i..i + |key|];
        assert w[|a| - 1 - i] == a[|a| - 1] && w[|a| - i] == t[0];
      }
    }
  }

  /** The same for `pre + mid + post`, with `pre` ending and `post` starting with a space (or empty). */
  lemma ContainsAround(pre: string, mid: string, post: string, key: string)
    requires key != [] && ' ' !in key
    requires pre == [] || pre[|pre| - 1] == ' '
    requires post == [] || post[0] == ' '
    requires !Contains(pre, key) && !Contains(mid, key) && !Contains(post, key)
    ensures !Contains(pre + mid + post, key)
  {
    ContainsConcat(pre, mid, key);
    ContainsConcat(pre + mid, post, key);
  }

  /** Replacing a key by itself is the identity. */
  lemma {:induction false} ReplaceSelf(s: string, key: string)
    ensures Replace(s, key, key) == s
  {
    if s != [] {
      if key == [] {
        ReplaceSelf(s[1..], key);
      } else if key <= s {
        ReplaceSelf(s[|key|..], key);
        assert s == key + s[|key|..];
      } else {
        ReplaceSelf(s[1..], key);
      }
    }
  }

  /**
   * What `replace_all` computes: `Replace` applied once per pair, in the
   * order the pairs are listed, each step working on the previous result.
   */
  function ReplaceInOrder(s: string, subs: Substitutions): string
    decreases |subs|
  {
    if subs == [] then s
    else
      var last := subs[|subs| - 1];
      Replace(ReplaceInOrder(s, subs[..|subs| - 1]), last.0, last.1)
  }

  /** `replace_all` as written: a loop that reassigns the input once per map entry. */
  method ReplaceAll(input: string, subs: Substitutions) returns (output: string)
    ensures output == ReplaceInOrder(input, subs)
  {
    output := input;
    for i := 0 to |subs|
      invariant output == ReplaceInOrder(input, subs[..i])
    {
      assert subs[..i + 1][..i] == subs[..i];
      output := Replace(output, subs[i].0, subs[i].1);
    }
    assert subs[..|subs|] == subs;
  }

  /** A template that contains none of the keys comes back unchanged, in any order. */
  lemma {:induction false} ReplaceInOrderNoKeys(s: string, subs: Substitutions)
    requires forall p :: p in subs ==> !Contains(s, p.0)
    ensures ReplaceInOrder(s, subs) == s
  {
    if subs != [] {
      var init := subs[..|subs| - 1];
      ReplaceInOrderNoKeys(s, init);
      ReplaceAbsent(s, subs[|subs| - 1].0, subs[|subs| - 1].1);
    }
  }

  /** A key holding a character that the string lacks cannot occur in it. */
  lemma ReplaceMissingChar(s: string, key: string, value: string, c: char)
    requires c in key && c !in s
    ensures Replace(s, key, value) == s
  {
    assert !Contains(s, key);
    ReplaceAbsent(s, key, value);
  }

  /** One pass of `Replace` does not rescan: "{{{{name}}}}" with name "dir" yields "{{dir}}". */
  lemma ReplaceNameCreatesDirKey()
    ensures Replace("{{{{name}}}}", "{{name}}", "dir") == "{{dir}}"
  {
    var k := "{{name}}";
    assert Replace("}}", k, "dir") == "}}" by {
      assert Replace("}", k, "dir") == "}";
    }
    assert Replace("{{name}}}}", k, "dir") == "dir}}" by {
      assert "{{name}}}}"[|k|..] == "}}";
    }
    assert Replace("{{{name}}}}", k, "dir") == "{dir}}" by {
      assert "{{{name}}}}"[1..] == "{{name}}}}";
    }
    assert "{{{{name}}}}"[1..] == "{{{name}}}}";
  }

  /** Two entries applied in order: the second key is replaced in the first result. */
  lemma ReplaceInOrderPair(s: string, first: (string, string), second: (string, string))
    ensures ReplaceInOrder(s, [first, second]) == Replace(Replace(s, first.0, first.1), second.0, second.1)
  {
    assert [first, second][..1] == [first];
    assert [first][..0] == [];
    assert ReplaceInOrder(s, [first]) == Replace(s, first.0, first.1);
  }

  /**
   * `replace_all` depends on the map's iteration order even when no value
   * contains a key: with name "dir", the template "{{{{name}}}}" becomes
   * "{{dir}}" when `{{name}}` is replaced first, and that is then replaced
   * by the directory `d`; when `{{dir}}` comes first, "{{dir}}" is left
   * behind.
   */
  lemma ReplaceAllDependsOnOrder(d: string)
    requires d != "{{dir}}"
    ensures ReplaceInOrder("{{{{name}}}}", [("{{name}}", "dir"), ("{{dir}}", d)]) == d
    ensures ReplaceInOrder("{{{{name}}}}", [("{{dir}}", d), ("{{name}}", "dir")]) == "{{dir}}"
    ensures ReplaceInOrder("{{{{name}}}}", [("{{name}}", "dir"), ("{{dir}}", d)])
         != ReplaceInOrder("{{{{name}}}}", [("{{dir}}", d), ("{{name}}", "dir")])
  {
    ReplaceAllNameFirst(d);
    ReplaceAllDirFirst(d);
  }

  /** Name first: the `{{dir}}` that the first pass leaves is replaced by the second. */
  lemma ReplaceAllNameFirst(d: string)
    ensures ReplaceInOrder("{{{{name}}}}", [("{{name}}", "dir"), ("{{dir}}", d)]) == d
  {
    ReplaceInOrderPair("{{{{name}}}}", ("{{name}}", "dir"), ("{{dir}}", d));
    ReplaceNameCreatesDirKey();
    ReplaceWholeKey("{{dir}}", d);
  }

  /** Directory first: the first pass finds nothing, the second leaves `{{dir}}` behind. */
  lemma ReplaceAllDirFirst(d: string)
    ensures ReplaceInOrder("{{{{name}}}}", [("{{dir}}", d), ("{{name}}", "dir")]) == "{{dir}}"
  {
    ReplaceInOrderPair("{{{{name}}}}", ("{{dir}}", d), ("{{name}}", "dir"));
    ReplaceMissingChar("{{{{name}}}}", "{{dir}}", d, 'd');
    ReplaceNameCreatesDirKey();
  }

  /** A string that is exactly the key becomes exactly the value. */
  lemma ReplaceWholeKey(key: string, value: string)
    requires key != []
    ensures Replace(key, key, value) == value
  {
    assert key[|key|..] == [];
  }

  /**
   * The first pair, in list order, whose non-empty key is a prefix of `s`.
   * Empty keys never match.
   */
  function FirstMatch(s: string, subs: Substitutions): (r: Option<(string, string)>)
    ensures r.Some? ==> r.value in subs && r.value.0 != [] && r.value.0 <= s
    ensures r.None? ==> forall p :: p in subs && p.0 != [] ==> !(p.0 <= s)
  {
    if subs == [] then None
    else if subs[0].0 != [] && subs[0].0 <= s then Some(subs[0])
    else FirstMatch(s, subs[1..])
  }

  /** No key is a prefix of another entry's key, so at most one key matches at any position. */
  predicate Unambiguous(subs: Substitutions)
  {
    forall i, j :: 0 <= i < |subs| && 0 <= j < |subs| && i != j ==> !(subs[i].0 <= subs[j].0)
  }

  /** In an unambiguous map the entry that matches is found whatever the list order. */
  lemma FirstMatchUnique(s: string, subs: Substitutions, p: (string, string))
    requires Unambiguous(subs)
    requires p in subs && p.0 != [] && p.0 <= s
    ensures FirstMatch(s, subs) == Some(p)
  {
    var q := FirstMatch(s, subs).value;
    var i :| 0 <= i < |subs| && subs[i] == p;
    var j :| 0 <= j < |subs| && subs[j] == q;
    PrefixesComparable(p.0, q.0, s);
  }

  /** Two prefixes of one string are prefixes of one another. */
  lemma PrefixesComparable(a: string, b: string, s: string)
    requires a <= s && b <= s
    ensures a <= b || b <= a
  {
    if |a| <= |b| {
      assert a == s[..|a|] == b[..|a|];
    } else {
      assert b == s[..|b|] == a[..|b|];
    }
  }

  /**
   * Placeholder substitution done in a single left-to-right scan: at each
   * position the matching key is replaced by its value and the scan resumes
   * after the key, so text taken from a value is never scanned again.
   */
  function Substitute(s: string, subs: Substitutions): (r: string)
    ensures (forall p :: p in subs ==> p.1 == p.0) ==> r == s
    ensures (forall p :: p in subs ==> |p.1| == |p.0|) ==> |r| == |s|
    decreases |s|
  {
    if s == [] then []
    else match FirstMatch(s, subs)
      case Some(p) => p.1 + Substitute(s[|p.0|..], subs)
      case None => [s[0]] + Substitute(s[1..], subs)
  }

  /**
   * The result of `Substitute` does not depend on the order of the map's
   * entries: two listings of the same unambiguous map give the same string.
   */
  lemma {:induction false} SubstituteOrderIndependent(s: string, a: Substitutions, b: Substitutions)
    requires Unambiguous(a) && Unambiguous(b)
    requires forall p :: p in a <==> p in b
    ensures Substitute(s, a) == Substitute(s, b)
    decreases |s|
  {
    if s != [] {
      match FirstMatch(s, a)
      case Some(p) =>
        FirstMatchUnique(s, b, p);
        SubstituteOrderIndependent(s[|p.0|..], a, b);
      case None =>
        match FirstMatch(s, b)
        case Some(q) =>
          FirstMatchUnique(s, a, q);
          assert false;
        case None =>
          SubstituteOrderIndependent(s[1..], a, b);
    }
  }

  /** With a single key, `Substitute` is exactly `str::replace`. */
  lemma {:induction false} SubstituteSingle(s: string, key: string, value: string)
    requires key != []
    ensures Substitute(s, [(key, value)]) == Replace(s, key, value)
    decreases |s|
  {
    if s != [] {
      if key <= s {
        assert FirstMatch(s, [(key, value)]) == Some((key, value));
        SubstituteSingle(s[|key|..], key, value);
      } else {
        assert FirstMatch(s, [(key, value)]) == None;
        SubstituteSingle(s[1..], key, value);
      }
    }
  }

  /** A template holding none of the keys comes back unchanged. */
  lemma {:induction false} SubstituteNoKeys(s: string, subs: Substitutions)
    requires forall p :: p in subs ==> !Contains(s, p.0)
    ensures Substitute(s, subs) == s
    decreases |s|
  {
    if s != [] {
      forall p | p in subs
        ensures !Contains(s[1..], p.0) && !(p.0 <= s)
      {
        assert !OccursAt(s, p.0, 0);
        forall i | OccursAt(s[1..], p.0, i)
          ensures OccursAt(s, p.0, i + 1)
        {
          assert s[1..][i..i + |p.0|] == s[i + 1..i + 1 + |p.0|];
        }
      }
      assert FirstMatch(s, subs) == None;
      SubstituteNoKeys(s[1..], subs);
    }
  }

  /** A character no key starts with is copied to the output as it is. */
  lemma {:induction false} SubstitutePlain(a: string, t: string, subs: Substitutions)
    requires forall p :: p in subs && p.0 != [] ==> p.0[0] !in a
    ensures Substitute(a + t, subs) == a + Substitute(t, subs)
    decreases |a|
  {
    if a != [] {
      var s := a + t;
      assert FirstMatch(s, subs) == None by {
        forall p | p in subs && p.0 != []
          ensures !(p.0 <= s)
        {
          assert s[0] == a[0];
        }
      }
      assert s[1..] == a[1..] + t;
      assert Substitute(s, subs) == [a[0]] + Substitute(a[1..] + t, subs);
      forall p | p in subs && p.0 != []
        ensures p.0[0] !in a[1..]
      {
        assert p.0[0] !in a;
      }
      SubstitutePlain(a[1..], t, subs);
      assert [a[0]] + a[1..] == a;
    } else {
      assert a + t == t;
    }
  }

  /** A key at the front of an unambiguous template is replaced by its value. */
  lemma SubstituteKey(key: string, value: string, t: string, subs: Substitutions)
    requires Unambiguous(subs) && (key, value) in subs && key != []
    ensures Substitute(key + t, subs) == value + Substitute(t, subs)
  {
    FirstMatchUnique(key + t, subs, (key, value));
    assert (key + t)[|key|..] == t;
  }

  /** `replace_args`: every argument is substituted, in place and in order. */
  function ReplaceArgs(args: seq<string>, subs: Substitutions): (r: seq<string>)
    ensures |r| == |args|
    ensures forall i :: 0 <= i < |args| ==> r[i] == Substitute(args[i], subs)
  {
    if args == [] then [] else [Substitute(args[0], subs)] + ReplaceArgs(args[1..], subs)
  }
}
