/**
 * The setup-plan template processor: literal `{{KEY}}` substitution over a template
 * file, the variable table of the setup plan, the choice of template and the
 * default output file name.
 */
module Template {
  import opened Common
  import EnvUrls
  import Validation

  // ---------------------------------------------------------------- literal replacement

  function Placeholder(key: string): (p: string)
    ensures |p| == |key| + 4
  {
    "{{" + key + "}}"
  }

  /** `p` occurs nowhere in `s`. */
  predicate Free(s: string, p: string)
  {
    forall i :: 0 <= i <= |s| - |p| ==> !OccursAt(s, p, i)
  }

  /**
   * Inserting `v` can never complete an occurrence of `q`: `v` holds neither the first
   * nor the last character of `q`, and some character of `v` is not in `q` at all.
   */
  predicate CannotForm(v: string, q: string)
  {
    |q| > 0 && q[0] !in v && q[|q| - 1] !in v && exists j :: 0 <= j < |v| && v[j] !in q
  }

  /**
   * `c.replace(new RegExp(p, 'g'), v)` for a placeholder matched literally: scan from the
   * left, replace each occurrence of `p` by `v`, and resume scanning after it.
   */
  function ReplaceAll(c: string, p: string, v: string): (r: string)
    requires |p| > 0
    decreases |c|
  {
    if |c| < |p| then c
    else if c[..|p|] == p then v + ReplaceAll(c[|p|..], p, v)
    else [c[0]] + ReplaceAll(c[1..], p, v)
  }

  /** Text without the placeholder comes back unchanged. */
  lemma {:induction false} ReplaceFree(c: string, p: string, v: string)
    requires |p| > 0 && Free(c, p)
    ensures ReplaceAll(c, p, v) == c
  {
    if |c| >= |p| {
      assert !OccursAt(c, p, 0);
      forall i | 0 <= i <= |c[1..]| - |p| ensures !OccursAt(c[1..], p, i) {
        assert c[1..][i..i + |p|] == c[i + 1..i + 1 + |p|];
        assert !OccursAt(c, p, i + 1);
      }
      ReplaceFree(c[1..], p, v);
      assert [c[0]] + c[1..] == c;
    }
  }

  /** The leftmost occurrence is replaced by the value, the text before it is kept, and scanning resumes after it. */
  lemma {:induction false} ReplaceFirst(x: string, y: string, p: string, v: string)
    requires |p| > 0
    requires forall m :: 0 <= m < |x| ==> !OccursAt(x + p + y, p, m)
    ensures ReplaceAll(x + p + y, p, v) == x + v + ReplaceAll(y, p, v)
  {
    var c := x + p + y;
    if x == [] {
      assert c == p + y && c[..|p|] == p && c[|p|..] == y;
    } else {
      assert !OccursAt(c, p, 0);
      assert c[1..] == x[1..] + p + y;
      forall m | 0 <= m < |x[1..]| ensures !OccursAt(x[1..] + p + y, p, m) {
        assert (x[1..] + p + y)[m..m + |p|] == c[m + 1..m + 1 + |p|];
        assert !OccursAt(c, p, m + 1);
      }
      ReplaceFirst(x[1..], y, p, v);
      assert [x[0]] + (x[1..] + v + ReplaceAll(y, p, v)) == x + v + ReplaceAll(y, p, v);
    }
  }

  /** If no occurrence of `p` starts before `k`, the first `k` characters are copied. */
  lemma {:induction false} ReplacePrefixBeforeMatch(c: string, p: string, v: string, k: nat)
    requires |p| > 0 && k <= |c|
    requires forall m :: 0 <= m < k ==> !OccursAt(c, p, m)
    ensures k <= |ReplaceAll(c, p, v)| && ReplaceAll(c, p, v)[..k] == c[..k]
    decreases |c|
  {
    if k == 0 || |c| < |p| {
    } else {
      assert !OccursAt(c, p, 0);
      var r' := ReplaceAll(c[1..], p, v);
      forall m | 0 <= m < k - 1 ensures !OccursAt(c[1..], p, m) {
        if m + |p| <= |c| - 1 {
          assert c[1..][m..m + |p|] == c[m + 1..m + 1 + |p|];
          assert !OccursAt(c, p, m + 1);
        }
      }
      ReplacePrefixBeforeMatch(c[1..], p, v, k - 1);
      assert ReplaceAll(c, p, v)[..k] == [c[0]] + r'[..k - 1];
    }
  }

  /** Any occurrence has a leftmost one at or before it. */
  lemma {:induction false} LeftmostOccurrence(c: string, p: string, j: nat) returns (m: nat)
    requires OccursAt(c, p, j)
    ensures m <= j && OccursAt(c, p, m) && forall k :: 0 <= k < m ==> !OccursAt(c, p, k)
    decreases j
  {
    if exists k :: 0 <= k < j && OccursAt(c, p, k) {
      var k :| 0 <= k < j && OccursAt(c, p, k);
      m := LeftmostOccurrence(c, p, k);
    } else {
      m := j;
    }
  }

  /** The result around the leftmost occurrence `m`: the text before it, the value, then the rest processed. */
  lemma ReplaceAtLeftmost(c: string, p: string, v: string, m: nat)
    requires |p| > 0 && OccursAt(c, p, m) && forall k :: 0 <= k < m ==> !OccursAt(c, p, k)
    ensures ReplaceAll(c, p, v) == c[..m] + v + ReplaceAll(c[m + |p|..], p, v)
  {
    var x, y := c[..m], c[m + |p|..];
    SplitAtOccurrence(c, p, m);
    assert forall k :: 0 <= k < |x| ==> !OccursAt(x + p + y, p, k);
    ReplaceFirst(x, y, p, v);
  }

  /** Text with `p` at `m` is the text before it, `p`, and the text after it. */
  lemma SplitAtOccurrence(c: string, p: string, m: nat)
    requires OccursAt(c, p, m)
    ensures c == c[..m] + p + c[m + |p|..]
  {
    assert c == c[..m] + c[m..m + |p|] + c[m + |p|..];
  }

  /** An occurrence of `q` in `x + v + z` lies wholly inside `x` or wholly inside `z` when `v` cannot form `q`. */
  lemma OccurrenceBesideValue(x: string, v: string, z: string, q: string, i: nat)
    requires CannotForm(v, q)
    ensures OccursAt(x + v + z, q, i) ==> OccursAt(x, q, i) || OccursAt(z, q, i - |x| - |v|)
  {
    var r := x + v + z;
    if i + |q| <= |r| && |x| < i + |q| && i < |x| + |v| {
      var s := r[i..i + |q|];
      var w :| 0 <= w < |v| && v[w] !in q;
      if i >= |x| {
        assert s[0] == v[i - |x|] && s[0] != q[0];
      } else if i + |q| <= |x| + |v| {
        assert s[|q| - 1] == v[i + |q| - 1 - |x|] && s[|q| - 1] != q[|q| - 1];
      } else {
        assert r[|x| + w] == v[w] && s[|x| - i + w] == v[w] && q[|x| - i + w] in q;
        assert s[|x| - i + w] != q[|x| - i + w];
      }
    } else if OccursAt(r, q, i) && i + |q| <= |x| {
      assert r[i..i + |q|] == x[i..i + |q|];
    } else if OccursAt(r, q, i) {
      assert r[i..i + |q|] == z[i - |x| - |v|..i - |x| - |v| + |q|];
    }
  }

  /**
   * Replacing `p` by a value that cannot form `q` creates no occurrence of `q`: if `q`
   * was absent it stays absent, and `p` itself never survives its own replacement.
   */
  lemma {:induction false} ReplaceCreatesNoOccurrence(c: string, p: string, v: string, q: string)
    requires |p| > 0 && CannotForm(v, q) && (q == p || Free(c, q))
    ensures Free(ReplaceAll(c, p, v), q)
    decreases |c|
  {
    if !Contains(c, p) {
      ReplaceFree(c, p, v);
      if q == p {
        assert Free(c, p);
      }
    } else {
      var j :| 0 <= j <= |c| - |p| && OccursAt(c, p, j);
      var m := LeftmostOccurrence(c, p, j);
      ReplaceAtLeftmost(c, p, v, m);
      var x, y := c[..m], c[m + |p|..];
      if q == p {
        FreeBeforeLeftmost(c, p, m);
      } else {
        FreeSlice(c, q, 0, m);
        FreeSlice(c, q, m + |p|, |c|);
        assert c[0..m] == x && c[m + |p|..|c|] == y;
      }
      ReplaceCreatesNoOccurrence(y, p, v, q);
      FreeAroundValue(x, v, ReplaceAll(y, p, v), q);
    }
  }

  /** A slice of text free of `q` is free of `q`. */
  lemma FreeSlice(c: string, q: string, lo: nat, hi: nat)
    requires lo <= hi <= |c| && Free(c, q)
    ensures Free(c[lo..hi], q)
  {
    var w := c[lo..hi];
    forall i | 0 <= i <= |w| - |q| ensures !OccursAt(w, q, i) {
      var inW, inC := w[i..i + |q|], c[lo + i..lo + i + |q|];
      forall t | 0 <= t < |q| ensures inW[t] == inC[t] {
        assert w[i + t] == c[lo + i + t];
      }
      assert inW == inC;
      assert !OccursAt(c, q, lo + i);
    }
  }

  /** The text before the leftmost occurrence of `p` holds no `p`. */
  lemma FreeBeforeLeftmost(c: string, p: string, m: nat)
    requires |p| > 0 && m <= |c| && forall k :: 0 <= k < m ==> !OccursAt(c, p, k)
    ensures Free(c[..m], p)
  {
    forall i | 0 <= i <= m - |p| ensures !OccursAt(c[..m], p, i) {
      assert c[..m][i..i + |p|] == c[i..i + |p|];
      assert !OccursAt(c, p, i);
    }
  }

  /** A value that cannot form `q`, between two texts free of `q`, gives a text free of `q`. */
  lemma FreeAroundValue(x: string, v: string, z: string, q: string)
    requires CannotForm(v, q) && Free(x, q) && Free(z, q)
    ensures Free(x + v + z, q)
  {
    forall i | 0 <= i <= |x + v + z| - |q| ensures !OccursAt(x + v + z, q, i) {
      OccurrenceBesideValue(x, v, z, q, i);
    }
  }

  /** `x` shifted by `d` disagrees with `y` somewhere they overlap, so `y` cannot start `d` characters into an occurrence of `x`. */
  ghost predicate Clash(x: string, y: string, d: nat)
  {
    exists t :: 0 <= t < |y| && d + t < |x| && x[d + t] != y[t]
  }

  /** Occurrences of `p` and `q` can never overlap. */
  ghost predicate NoOverlap(p: string, q: string)
  {
    (forall d :: 0 < d < |q| ==> Clash(q, p, d)) && (forall d :: 0 <= d < |p| ==> Clash(p, q, d))
  }

  /** Two occurrences `d` characters apart agree wherever they overlap. */
  lemma OverlapAgrees(c: string, x: string, y: string, i: nat, d: nat)
    ensures OccursAt(c, x, i) && OccursAt(c, y, i + d) ==> !Clash(x, y, d)
  {
    if OccursAt(c, x, i) && OccursAt(c, y, i + d) {
      forall t | 0 <= t < |y| && d + t < |x| ensures x[d + t] == y[t] {
        assert c[i..i + |x|][d + t] == c[i + d + t];
        assert c[i + d..i + d + |y|][t] == c[i + d + t];
      }
    }
  }

  /** An occurrence in `b` is an occurrence in `a + b`, shifted by `|a|`. */
  /** An occurrence of `q` that no occurrence of `p` can overlap survives the replacement of `p`. */
  lemma {:induction false} ReplaceKeepsOccurrence(c: string, p: string, v: string, q: string, j: nat)
    requires |p| > 0 && NoOverlap(p, q) && OccursAt(c, q, j)
    ensures Contains(ReplaceAll(c, p, v), q)
    decreases |c|, 1
  {
    if |c| < |p| {
      assert ReplaceAll(c, p, v) == c;
      assert OccursAt(ReplaceAll(c, p, v), q, j);
    } else if c[..|p|] == p {
      KeepsAfterMatch(c, p, v, q, j);
    } else if j > 0 {
      KeepsAfterCopy(c, p, v, q, j);
    } else {
      KeepsAtStart(c, p, v, q);
    }
  }

  /** `c` starts with `p`: the occurrence of `q` lies after it and survives in the rest. */
  lemma {:induction false} KeepsAfterMatch(c: string, p: string, v: string, q: string, j: nat)
    requires |p| > 0 && NoOverlap(p, q) && OccursAt(c, q, j) && |c| >= |p| && c[..|p|] == p
    ensures Contains(ReplaceAll(c, p, v), q)
    decreases |c|, 0
  {
    assert OccursAt(c, p, 0);
    OverlapAgrees(c, p, q, 0, j);
    assert j >= |p|;
    var c' := c[|p|..];
    var r' := ReplaceAll(c', p, v);
    assert ReplaceAll(c, p, v) == v + r';
    assert c'[j - |p|..j - |p| + |q|] == c[j..j + |q|];
    ReplaceKeepsOccurrence(c', p, v, q, j - |p|);
    var i :| 0 <= i <= |r'| - |q| && OccursAt(r', q, i);
    ShiftOccurrence(v, r', q, i);
  }

  /** `c` does not start with `p` and `q` occurs later: the first character is copied and the rest keeps `q`. */
  lemma {:induction false} KeepsAfterCopy(c: string, p: string, v: string, q: string, j: nat)
    requires |p| > 0 && NoOverlap(p, q) && OccursAt(c, q, j) && |c| >= |p| && c[..|p|] != p && j > 0
    ensures Contains(ReplaceAll(c, p, v), q)
    decreases |c|, 0
  {
    var c' := c[1..];
    var r' := ReplaceAll(c', p, v);
    assert ReplaceAll(c, p, v) == [c[0]] + r';
    assert c'[j - 1..j - 1 + |q|] == c[j..j + |q|];
    ReplaceKeepsOccurrence(c', p, v, q, j - 1);
    var i :| 0 <= i <= |r'| - |q| && OccursAt(r', q, i);
    ShiftOccurrence([c[0]], r', q, i);
  }

  /** `q` starts `c`: no occurrence of `p` starts inside it, so it is copied as it is. */
  lemma KeepsAtStart(c: string, p: string, v: string, q: string)
    requires |p| > 0 && NoOverlap(p, q) && OccursAt(c, q, 0)
    ensures Contains(ReplaceAll(c, p, v), q)
  {
    forall m | 0 <= m < |q| ensures !OccursAt(c, p, m) {
      OverlapAgrees(c, q, p, 0, m);
      if m > 0 {
        assert Clash(q, p, m);
      } else {
        assert Clash(p, q, 0);
      }
    }
    ReplacePrefixBeforeMatch(c, p, v, |q|);
    assert OccursAt(ReplaceAll(c, p, v), q, 0);
  }

  // ---------------------------------------------------------------- placeholders of distinct keys

  predicate BraceFree(key: string)
  {
    forall i :: 0 <= i < |key| ==> key[i] != '{' && key[i] != '}'
  }

  lemma ShiftedPlaceholderClash(k1: string, k2: string, d: nat)
    requires BraceFree(k1) && 0 < d < |Placeholder(k1)|
    ensures Clash(Placeholder(k1), Placeholder(k2), d)
  {
    var x, y := Placeholder(k1), Placeholder(k2);
    if d == 1 {
      assert x[2] != '{' by { if |k1| > 0 { assert x[2] == k1[0]; } }
      assert y[1] == '{';
      assert d + 1 < |x| && x[d + 1] != y[1];
    } else {
      assert x[d] != '{' by { if d < |k1| + 2 { assert x[d] == k1[d - 2]; } }
      assert x[d + 0] != y[0];
    }
  }

  lemma DistinctPlaceholderClash(k1: string, k2: string)
    requires BraceFree(k1) && BraceFree(k2) && k1 != k2
    ensures Clash(Placeholder(k1), Placeholder(k2), 0)
  {
    var x, y := Placeholder(k1), Placeholder(k2);
    if |k1| == |k2| {
      var i :| 0 <= i < |k1| && k1[i] != k2[i];
      assert x[i + 2] == k1[i] && y[i + 2] == k2[i];
    } else if |k1| < |k2| {
      assert x[|k1| + 2] == '}' && y[|k1| + 2] == k2[|k1|];
    } else {
      assert y[|k2| + 2] == '}' && x[|k2| + 2] == k1[|k2|];
    }
  }

  /** Placeholders of two different brace-free keys can never overlap. */
  lemma PlaceholdersDoNotOverlap(kp: string, kq: string)
    requires BraceFree(kp) && BraceFree(kq) && kp != kq
    ensures NoOverlap(Placeholder(kp), Placeholder(kq))
  {
    forall d | 0 < d < |Placeholder(kq)| ensures Clash(Placeholder(kq), Placeholder(kp), d) {
      ShiftedPlaceholderClash(kq, kp, d);
    }
    forall d | 0 <= d < |Placeholder(kp)| ensures Clash(Placeholder(kp), Placeholder(kq), d) {
      if d == 0 { DistinctPlaceholderClash(kp, kq); } else { ShiftedPlaceholderClash(kp, kq, d); }
    }
  }

  // ---------------------------------------------------------------- the substitution loop

  /** The content after the loop has substituted every entry of `vars`, in order. */
  function Substitute(content: string, vars: seq<(string, string)>): string
    decreases |vars|
  {
    if vars == [] then content
    else
      var last := vars[|vars| - 1];
      ReplaceAll(Substitute(content, vars[..|vars| - 1]), Placeholder(last.0), last.1)
  }

  /** No value can form the placeholder of its own key or of any key substituted before it. */
  ghost predicate InertValues(vars: seq<(string, string)>)
  {
    forall i, j :: 0 <= i <= j < |vars| ==> CannotForm(vars[j].1, Placeholder(vars[i].0))
  }

  /** With inert values, no placeholder of any key in the table survives substitution. */
  lemma {:induction false} SubstituteLeavesNoPlaceholder(content: string, vars: seq<(string, string)>, i: nat)
    requires InertValues(vars) && i < |vars|
    ensures Free(Substitute(content, vars), Placeholder(vars[i].0))
    decreases |vars|
  {
    var n := |vars| - 1;
    var init := vars[..n];
    var before := Substitute(content, init);
    var last := vars[n];
    if i == n {
      ReplaceCreatesNoOccurrence(before, Placeholder(last.0), last.1, Placeholder(last.0));
    } else {
      assert InertValues(init) by {
        forall a, b | 0 <= a <= b < |init|
          ensures CannotForm(init[b].1, Placeholder(init[a].0))
        {
          assert init[a] == vars[a] && init[b] == vars[b];
        }
      }
      SubstituteLeavesNoPlaceholder(content, init, i);
      assert init[i] == vars[i];
      ReplaceCreatesNoOccurrence(before, Placeholder(last.0), last.1, Placeholder(vars[i].0));
    }
  }

  /** A placeholder whose key is not in the table is left where it is. */
  lemma {:induction false} SubstituteKeepsUnknownPlaceholder(content: string, vars: seq<(string, string)>, key: string)
    requires BraceFree(key) && Contains(content, Placeholder(key))
    requires forall i :: 0 <= i < |vars| ==> BraceFree(vars[i].0) && vars[i].0 != key
    ensures Contains(Substitute(content, vars), Placeholder(key))
    decreases |vars|
  {
    if vars != [] {
      var n := |vars| - 1;
      var init := vars[..n];
      assert forall i :: 0 <= i < |init| ==> init[i] == vars[i];
      SubstituteKeepsUnknownPlaceholder(content, init, key);
      var before := Substitute(content, init);
      var j :| 0 <= j <= |before| - |Placeholder(key)| && OccursAt(before, Placeholder(key), j);
      PlaceholdersDoNotOverlap(vars[n].0, key);
      ReplaceKeepsOccurrence(before, Placeholder(vars[n].0), vars[n].1, Placeholder(key), j);
    }
  }

  /** Content holding none of the table's placeholders comes back unchanged. */
  lemma {:induction false} SubstituteWithoutPlaceholders(content: string, vars: seq<(string, string)>)
    requires forall i :: 0 <= i < |vars| ==> Free(content, Placeholder(vars[i].0))
    ensures Substitute(content, vars) == content
    decreases |vars|
  {
    if vars != [] {
      var n := |vars| - 1;
      assert forall i :: 0 <= i < n ==> vars[..n][i] == vars[i];
      SubstituteWithoutPlaceholders(content, vars[..n]);
      ReplaceFree(content, Placeholder(vars[n].0), vars[n].1);
    }
  }

  /**
   * Without the side condition on values a placeholder can survive: a later key's value
   * may reintroduce an earlier key's placeholder.
   */
  lemma LaterValueReintroducesPlaceholder()
    ensures Substitute("{{B}}", [("A", "x"), ("B", "{{A}}")]) == "{{A}}"
  {
    var vars := [("A", "x"), ("B", "{{A}}")];
    assert vars[..1] == [("A", "x")] && vars[..1][..0] == [];
    assert "{{B}}"[0..5][2] != "{{A}}"[2];
    ReplaceFree("{{B}}", "{{A}}", "x");
    assert Substitute("{{B}}", vars[..1]) == "{{B}}";
    ReplaceFirst("", "", "{{B}}", "{{A}}");
  }

  const TemplateNotFound := "Template file not found: "

  function FailurePrefix(templateName: string): string
  {
    "Failed to process template " + templateName + ": "
  }

  function TemplatePath(templateDir: string, templateName: string): string
  {
    templateDir + "/" + templateName
  }

  /**
   * `processTemplate`: `templates` maps the file names present in the template
   * directory to their contents; `variables` lists the entries in object order.
   */
  method ProcessTemplate(templates: map<string, string>, templateDir: string, templateName: string,
                         variables: seq<(string, string)>)
    returns (r: Result<string, string>)
    ensures templateName !in templates ==>
      r == Err(FailurePrefix(templateName) + TemplateNotFound + TemplatePath(templateDir, templateName))
    ensures templateName in templates ==> r == Ok(Substitute(templates[templateName], variables))
  {
    if templateName !in templates {
      return Err(FailurePrefix(templateName) + TemplateNotFound + TemplatePath(templateDir, templateName));
    }
    var content := templates[templateName];
    for i := 0 to |variables|
      invariant content == Substitute(templates[templateName], variables[..i])
    {
      var (key, value) := variables[i];
      assert variables[..i + 1][..i] == variables[..i];
      content := ReplaceAll(content, Placeholder(key), value);
    }
    assert variables[..|variables|] == variables;
    return Ok(content);
  }

  // ---------------------------------------------------------------- the setup plan

  const DomainHint := "your organization domain " + "(e.g., company.onmicrosoft.com)"

  function TemplateName(ssoType: string): (name: string)
    ensures name == (if ssoType == "oidc" then "oidc-setup-plan.md" else "saml-setup-plan.md")
  {
    if ssoType == "oidc" then "oidc-setup-plan.md" else "saml-setup-plan.md"
  }

  /** The value the table gives `key`: the first entry with that key. */
  function Lookup(vars: seq<(string, string)>, key: string): (r: Option<string>)
    ensures r.None? <==> forall i :: 0 <= i < |vars| ==> vars[i].0 != key
    ensures r.Some? ==> exists i :: 0 <= i < |vars| && vars[i] == (key, r.value) &&
                                    forall j :: 0 <= j < i ==> vars[j].0 != key
  {
    if vars == [] then None
    else if vars[0].0 == key then Some(vars[0].1)
    else
      assert forall i :: 1 <= i < |vars| ==> vars[i] == vars[1..][i - 1];
      Lookup(vars[1..], key)
  }

  /** A value for a key of the first list: the entries are used in this order. */
  function Zip(keys: seq<string>, values: seq<string>): seq<(string, string)>
    requires |keys| == |values|
  {
    seq(|keys|, i requires 0 <= i < |keys| => (keys[i], values[i]))
  }

  /** In a zipped table a key is looked up to the value beside its first occurrence. */
  lemma ZipLookup(keys: seq<string>, values: seq<string>, k: nat)
    requires |keys| == |values| && k < |keys| && forall j :: 0 <= j < k ==> keys[j] != keys[k]
    ensures Lookup(Zip(keys, values), keys[k]) == Some(values[k])
  {
    var vars := Zip(keys, values);
    assert vars[k] == (keys[k], values[k]);
    forall j | 0 <= j < k ensures vars[j].0 != vars[k].0 {
      assert vars[j] == (keys[j], values[j]);
    }
    LookupFirst(vars, k);
  }

  /** A key that is not among the zipped keys has no value. */
  lemma ZipLookupAbsent(keys: seq<string>, values: seq<string>, key: string)
    requires |keys| == |values| && key !in keys
    ensures Lookup(Zip(keys, values), key) == None
  {
    var vars := Zip(keys, values);
    forall i | 0 <= i < |vars| ensures vars[i].0 != key {
      assert vars[i] == (keys[i], values[i]);
    }
  }

  /** The first entry for a key that no earlier entry has is the one `Lookup` finds. */
  lemma LookupFirst(vars: seq<(string, string)>, k: nat)
    requires k < |vars| && forall j :: 0 <= j < k ==> vars[j].0 != vars[k].0
    ensures Lookup(vars, vars[k].0) == Some(vars[k].1)
  {
  }

  /** The keys of the setup-plan table, in object order. */
  const SetupPlanKeys: seq<string> := [
    "DATE", "ENTERPRISE_NAME", "DOMAIN", "SSO_TYPE", "ENV_TYPE", "DISPLAY_NAME", "ENTITY_ID",
    "REPLY_URL", "SIGN_ON_URL", "LOGOUT_URL", "GITHUB_SAML_URL", "GITHUB_TOKEN_URL",
    "GITHUB_SSO_CONFIG_URL", "SCIM_ENDPOINT"]

  lemma SetupPlanKeysDistinct()
    ensures forall i, j :: 0 <= i < j < |SetupPlanKeys| ==> SetupPlanKeys[i] != SetupPlanKeys[j]
  {
    var k := SetupPlanKeys;
    assert k[1][0] != k[10][0] && k[3][0] != k[4][0] && k[6][0] != k[7][0];
  }

  lemma SetupPlanKeyWords()
    ensures forall i :: 0 <= i < |SetupPlanKeys| ==> KeyWord(SetupPlanKeys[i])
  {
  }

  /** The values of the setup-plan table, in the order of `SetupPlanKeys`. */
  function SetupPlanValues(enterpriseName: string, domain: string, ssoType: string,
                           envType: string, date: string): (vals: seq<string>)
    ensures |vals| == |SetupPlanKeys|
  {
    var urls := EnvUrls.GetBaseUrls(Some(envType), enterpriseName);
    var web, api := urls.web, urls.api;
    [ date,
      enterpriseName,
      if domain == "common" then DomainHint else domain,
      Upper(ssoType),
      envType,
      "GitHub Enterprise " + Upper(ssoType) + " SSO - " + enterpriseName,
      web + "/enterprises/" + enterpriseName,
      web + "/enterprises/" + enterpriseName + "/saml/consume",
      web + "/enterprises/" + enterpriseName + "/sso",
      web + "/enterprises/" + enterpriseName + "/saml/sls",
      web + "/enterprises/" + enterpriseName + "/settings/saml_provider/edit",
      web + EnvUrls.TokenPath,
      web + "/enterprises/" + enterpriseName + "/settings/single_sign_on_configuration",
      api + "/scim/v2/enterprises/" + enterpriseName + "/" ]
  }

  /** The variable table of `generateHtmlSetupPlan`. */
  function SetupPlanVariables(enterpriseName: string, domain: string, ssoType: string,
                              envType: string, date: string): seq<(string, string)>
  {
    Zip(SetupPlanKeys, SetupPlanValues(enterpriseName, domain, ssoType, envType, date))
  }

  /** Each key of the table is substituted by its own value. */
  lemma SetupPlanLookup(enterpriseName: string, domain: string, ssoType: string,
                        envType: string, date: string, k: nat)
    requires k < |SetupPlanKeys|
    ensures Lookup(SetupPlanVariables(enterpriseName, domain, ssoType, envType, date), SetupPlanKeys[k]) ==
            Some(SetupPlanValues(enterpriseName, domain, ssoType, envType, date)[k])
  {
    SetupPlanKeysDistinct();
    ZipLookup(SetupPlanKeys, SetupPlanValues(enterpriseName, domain, ssoType, envType, date), k);
  }

  /** The value substituted for each URL key agrees with the application configuration for the same environment and enterprise. */
  lemma SetupPlanAgreesWithAppConfig(enterpriseName: string, domain: string, ssoType: string,
                                     envType: string, date: string)
    ensures var vars := SetupPlanVariables(enterpriseName, domain, ssoType, envType, date);
            var cfg := EnvUrls.GetAppConfig(Some(envType), enterpriseName, ssoType);
            Lookup(vars, "ENTITY_ID") == Some(cfg.entityId) &&
            Lookup(vars, "SIGN_ON_URL") == Some(cfg.signOnUrl) &&
            Lookup(vars, "LOGOUT_URL") == Some(cfg.logoutUrl) &&
            Lookup(vars, "GITHUB_SAML_URL") == Some(cfg.githubSamlUrl) &&
            Lookup(vars, "GITHUB_TOKEN_URL") == Some(cfg.githubTokenUrl) &&
            Lookup(vars, "GITHUB_SSO_CONFIG_URL") == Some(cfg.githubSsoConfigUrl) &&
            Lookup(vars, "SCIM_ENDPOINT") == Some(EnvUrls.GetScimEndpoint(Some(envType), enterpriseName) + "/")
  {
    var vals := SetupPlanValues(enterpriseName, domain, ssoType, envType, date);
    SetupPlanLookup(enterpriseName, domain, ssoType, envType, date, 6);
    SetupPlanLookup(enterpriseName, domain, ssoType, envType, date, 8);
    SetupPlanLookup(enterpriseName, domain, ssoType, envType, date, 9);
    SetupPlanLookup(enterpriseName, domain, ssoType, envType, date, 10);
    SetupPlanLookup(enterpriseName, domain, ssoType, envType, date, 11);
    SetupPlanLookup(enterpriseName, domain, ssoType, envType, date, 12);
    SetupPlanLookup(enterpriseName, domain, ssoType, envType, date, 13);
  }

  /** REPLY_URL is the SAML consumer URL whatever the SSO type, so for OIDC it differs from the configured callback. */
  lemma SetupPlanReplyUrlIsSaml(enterpriseName: string, domain: string, ssoType: string,
                                envType: string, date: string)
    ensures var vars := SetupPlanVariables(enterpriseName, domain, ssoType, envType, date);
            Lookup(vars, "REPLY_URL") == Some(EnvUrls.GetAppConfig(Some(envType), enterpriseName, "saml").replyUrl) &&
            Lookup(vars, "REPLY_URL") != Some(EnvUrls.GetAppConfig(Some(envType), enterpriseName, "oidc").replyUrl)
  {
    var vals := SetupPlanValues(enterpriseName, domain, ssoType, envType, date);
    var id := EnvUrls.GetAppConfig(Some(envType), enterpriseName, "saml").entityId;
    assert id == EnvUrls.GetBaseUrls(Some(envType), enterpriseName).web + "/enterprises/" + enterpriseName;
    var saml, oidc := id + "/saml/consume", id + "/oauth/callback";
    assert vals[7] == saml;
    assert EnvUrls.GetAppConfig(Some(envType), enterpriseName, "oidc").replyUrl == oidc;
    SetupPlanLookup(enterpriseName, domain, ssoType, envType, date, 7);
    assert saml[|id| + 1] == 's' && oidc[|id| + 1] == 'o';
  }

  /** DOMAIN is the fixed hint for `common` and the domain itself otherwise; SSO_TYPE is the upper-cased type. */
  lemma SetupPlanDomainAndType(enterpriseName: string, domain: string, ssoType: string,
                               envType: string, date: string)
    ensures var vars := SetupPlanVariables(enterpriseName, domain, ssoType, envType, date);
            Lookup(vars, "DOMAIN") == Some(if domain == "common" then DomainHint else domain) &&
            Lookup(vars, "SSO_TYPE") == Some(Upper(ssoType)) &&
            Lookup(vars, "ENTERPRISE_NAME") == Some(enterpriseName) &&
            Lookup(vars, "ENV_TYPE") == Some(envType) &&
            Lookup(vars, "DATE") == Some(date)
  {
    var vars := SetupPlanVariables(enterpriseName, domain, ssoType, envType, date);
    var vals := SetupPlanValues(enterpriseName, domain, ssoType, envType, date);
    assert vals[0] == date && vals[1] == enterpriseName && vals[2] == (if domain == "common" then DomainHint else domain);
    assert vals[3] == Upper(ssoType) && vals[4] == envType;
    SetupPlanLookup(enterpriseName, domain, ssoType, envType, date, 0);
    SetupPlanLookup(enterpriseName, domain, ssoType, envType, date, 1);
    SetupPlanLookup(enterpriseName, domain, ssoType, envType, date, 2);
    SetupPlanLookup(enterpriseName, domain, ssoType, envType, date, 3);
    SetupPlanLookup(enterpriseName, domain, ssoType, envType, date, 4);
  }

  /** For SAML the plan's display name is the configured one. */
  lemma SetupPlanDisplayNameSaml(enterpriseName: string, domain: string, envType: string, date: string)
    ensures Lookup(SetupPlanVariables(enterpriseName, domain, "saml", envType, date), "DISPLAY_NAME") ==
            Some(EnvUrls.GetAppConfig(Some(envType), enterpriseName, "saml").displayName)
  {
    var vals := SetupPlanValues(enterpriseName, domain, "saml", envType, date);
    assert vals[5] == "GitHub Enterprise " + Upper("saml") + " SSO - " + enterpriseName;
    SamlDisplayPrefix();
    SetupPlanLookup(enterpriseName, domain, "saml", envType, date, 5);
  }

  lemma SamlDisplayPrefix()
    ensures "GitHub Enterprise " + Upper("saml") + " SSO - " == "GitHub Enterprise SAML SSO - "
  {
    assert Upper("saml") == "SAML";
  }

  /** For OIDC the plan names the type instead of the configured fixed OIDC name. */
  lemma SetupPlanDisplayNameOidc(enterpriseName: string, domain: string, envType: string, date: string)
    ensures Lookup(SetupPlanVariables(enterpriseName, domain, "oidc", envType, date), "DISPLAY_NAME") !=
            Some(EnvUrls.GetAppConfig(Some(envType), enterpriseName, "oidc").displayName)
  {
    var vals := SetupPlanValues(enterpriseName, domain, "oidc", envType, date);
    assert vals[5] == "GitHub Enterprise " + Upper("oidc") + " SSO - " + enterpriseName;
    SetupPlanLookup(enterpriseName, domain, "oidc", envType, date, 5);
    OidcPlanNameDiffers(enterpriseName);
  }

  lemma OidcPlanNameDiffers(e: string)
    ensures "GitHub Enterprise " + Upper("oidc") + " SSO - " + e != EnvUrls.OidcDisplayName
  {
    var plan := "GitHub Enterprise " + Upper("oidc") + " SSO - " + e;
    assert Upper("oidc")[0] == 'O';
    assert plan[18] == 'O';
    assert EnvUrls.OidcDisplayName[18] == 'M';
  }

  // ---------------------------------------------------------------- when no placeholder survives

  predicate IsKeyChar(c: char) { 'A' <= c <= 'Z' || c == '_' }

  /** The keys of the setup-plan table are upper-case words. */
  predicate KeyWord(k: string)
  {
    forall i :: 0 <= i < |k| ==> IsKeyChar(k[i])
  }

  /** A brace-free value with some character that no key uses. */
  ghost predicate SafeValue(v: string)
  {
    BraceFree(v) && exists j :: 0 <= j < |v| && !IsKeyChar(v[j])
  }

  /** A brace-free value holding, at `w`, a character that the key lacks cannot form that key's placeholder. */
  lemma CharCannotForm(v: string, w: nat, k: string)
    requires BraceFree(v) && w < |v| && v[w] != '{' && v[w] != '}'
    requires forall i :: 0 <= i < |k| ==> k[i] != v[w]
    ensures CannotForm(v, Placeholder(k))
  {
    var q := Placeholder(k);
    forall t | 0 <= t < |q| ensures q[t] != v[w] {
      if 2 <= t < |k| + 2 {
        assert q[t] == k[t - 2];
      }
    }
    forall t | 0 <= t < |v| ensures v[t] != q[0] && v[t] != q[|q| - 1] {
    }
  }

  lemma SafeValueCannotForm(v: string, k: string)
    requires SafeValue(v) && KeyWord(k)
    ensures CannotForm(v, Placeholder(k))
  {
    var j :| 0 <= j < |v| && !IsKeyChar(v[j]);
    CharCannotForm(v, j, k);
  }

  lemma BraceFreeConcat(a: string, b: string)
    requires BraceFree(a) && BraceFree(b)
    ensures BraceFree(a + b)
  {
    forall i | 0 <= i < |a + b| ensures (a + b)[i] != '{' && (a + b)[i] != '}' {
      if i >= |a| { assert (a + b)[i] == b[i - |a|]; }
    }
  }

  lemma SafeThenBraceFree(a: string, b: string)
    requires SafeValue(a) && BraceFree(b)
    ensures SafeValue(a + b)
  {
    BraceFreeConcat(a, b);
    var j :| 0 <= j < |a| && !IsKeyChar(a[j]);
    assert (a + b)[j] == a[j];
  }

  /** Every accepted enterprise slug is a safe value: it is nonempty and lower-case. */
  lemma SlugIsSafeValue(slug: string)
    requires Validation.ValidateEnterpriseSlug(slug)
    ensures SafeValue(slug)
  {
    Validation.SlugAcceptedIff(slug);
    assert !IsKeyChar(slug[0]);
  }

  /** The upper-cased SSO type cannot form the placeholder of any key substituted before it. */
  lemma SsoTypeCannotForm(ssoType: string, i: nat)
    requires ssoType == "saml" || ssoType == "oidc"
    requires i <= 3
    ensures CannotForm(Upper(ssoType), Placeholder(SetupPlanKeys[i]))
  {
    var k := SetupPlanKeys[i];
    assert k == ["DATE", "ENTERPRISE_NAME", "DOMAIN", "SSO_TYPE"][i];
    if ssoType == "saml" {
      assert Upper(ssoType) == "SAML";
      SamlCannotForm(k);
    } else {
      assert Upper(ssoType) == "OIDC";
      OidcCannotForm(k);
    }
  }

  lemma SamlCannotForm(k: string)
    requires k in ["DATE", "ENTERPRISE_NAME", "DOMAIN", "SSO_TYPE"]
    ensures CannotForm("SAML", Placeholder(k))
  {
    if k == "DATE" || k == "SSO_TYPE" {
      CharCannotForm("SAML", 2, k);
    } else if k == "ENTERPRISE_NAME" {
      CharCannotForm("SAML", 3, k);
    } else {
      CharCannotForm("SAML", 0, k);
    }
  }

  lemma OidcCannotForm(k: string)
    requires k in ["DATE", "ENTERPRISE_NAME", "DOMAIN", "SSO_TYPE"]
    ensures CannotForm("OIDC", Placeholder(k))
  {
    if k == "DATE" || k == "ENTERPRISE_NAME" {
      CharCannotForm("OIDC", 0, k);
    } else if k == "DOMAIN" {
      CharCannotForm("OIDC", 3, k);
    } else {
      CharCannotForm("OIDC", 1, k);
    }
  }

  lemma WebUrlsSafe(envType: string, e: string)
    requires BraceFree(e)
    ensures SafeValue(EnvUrls.GetBaseUrls(Some(envType), e).web)
    ensures SafeValue(EnvUrls.GetBaseUrls(Some(envType), e).api)
  {
    if envType == "ghe.com" {
      GheUrlsSafe(e);
    } else {
      DotComUrlsSafe();
    }
  }

  lemma DotComUrlsSafe()
    ensures SafeValue(EnvUrls.DotComUrls.web) && SafeValue(EnvUrls.DotComUrls.api)
  {
    assert !IsKeyChar(EnvUrls.DotComUrls.web[0]) && !IsKeyChar(EnvUrls.DotComUrls.api[0]);
  }

  lemma GheUrlsSafe(e: string)
    requires BraceFree(e)
    ensures SafeValue(EnvUrls.Scheme + e + ".ghe.com") && SafeValue(EnvUrls.Scheme + "api." + e + ".ghe.com")
  {
    var web, api := EnvUrls.Scheme + e + ".ghe.com", EnvUrls.Scheme + "api." + e + ".ghe.com";
    BraceFreeConcat(EnvUrls.Scheme, e);
    BraceFreeConcat(EnvUrls.Scheme + e, ".ghe.com");
    BraceFreeConcat(EnvUrls.Scheme + "api.", e);
    BraceFreeConcat(EnvUrls.Scheme + "api." + e, ".ghe.com");
    assert web[0] == 'h' && api[0] == 'h';
  }

  lemma DisplayNameSafe(ssoType: string, e: string)
    requires (ssoType == "saml" || ssoType == "oidc") && BraceFree(e)
    ensures SafeValue("GitHub Enterprise " + Upper(ssoType) + " SSO - " + e)
  {
    var upper := Upper(ssoType);
    assert BraceFree(upper) by {
      assert Upper("saml") == "SAML" && Upper("oidc") == "OIDC";
    }
    assert !IsKeyChar("GitHub Enterprise "[1]);
    SafeThenBraceFree("GitHub Enterprise ", upper);
    SafeThenBraceFree("GitHub Enterprise " + upper, " SSO - ");
    SafeThenBraceFree("GitHub Enterprise " + upper + " SSO - ", e);
  }

  lemma TokenPathBraceFree()
    ensures BraceFree(EnvUrls.TokenPath)
  {
    BraceFreeConcat("/settings/tokens/new", "?scopes=scim:enterprise");
    BraceFreeConcat("/settings/tokens/new" + "?scopes=scim:enterprise", "&description=SCIM%20Token");
  }

  lemma DomainHintSafe()
    ensures SafeValue(DomainHint)
  {
    BraceFreeConcat("your organization domain ", "(e.g., company.onmicrosoft.com)");
    assert !IsKeyChar(DomainHint[0]);
  }

  /** A URL under the enterprise's path on the web host. */
  lemma EnterpriseUrlSafe(web: string, e: string, tail: string)
    requires SafeValue(web) && BraceFree(e) && BraceFree(tail)
    ensures SafeValue(web + "/enterprises/" + e + tail)
  {
    BraceFreeConcat("/enterprises/", e);
    BraceFreeConcat("/enterprises/" + e, tail);
    SafeThenBraceFree(web, "/enterprises/" + e + tail);
    assert web + "/enterprises/" + e + tail == web + ("/enterprises/" + e + tail);
  }

  /** Every value except the SSO type is safe when the free-text inputs are. */
  lemma SetupPlanValuesSafe(enterpriseName: string, domain: string, ssoType: string, envType: string, date: string, j: nat)
    requires SafeValue(enterpriseName) && SafeValue(domain) && SafeValue(envType) && SafeValue(date)
    requires ssoType == "saml" || ssoType == "oidc"
    requires j < |SetupPlanKeys| && j != 3
    ensures SafeValue(SetupPlanValues(enterpriseName, domain, ssoType, envType, date)[j])
  {
    var e := enterpriseName;
    var vals := SetupPlanValues(enterpriseName, domain, ssoType, envType, date);
    var urls := EnvUrls.GetBaseUrls(Some(envType), e);
    if j == 2 {
      DomainHintSafe();
    } else if j == 5 {
      DisplayNameSafe(ssoType, e);
    } else if j >= 6 {
      WebUrlsSafe(envType, e);
      UrlValuesSafe(urls, e, j, vals[j]);
    }
  }

  /** The URL values of the table, from index 6 on. */
  lemma UrlValuesSafe(urls: EnvUrls.BaseUrls, e: string, j: nat, v: string)
    requires SafeValue(urls.web) && SafeValue(urls.api) && BraceFree(e) && 6 <= j < 14
    requires v == [urls.web + "/enterprises/" + e,
                   urls.web + "/enterprises/" + e + "/saml/consume",
                   urls.web + "/enterprises/" + e + "/sso",
                   urls.web + "/enterprises/" + e + "/saml/sls",
                   urls.web + "/enterprises/" + e + "/settings/saml_provider/edit",
                   urls.web + EnvUrls.TokenPath,
                   urls.web + "/enterprises/" + e + "/settings/single_sign_on_configuration",
                   urls.api + "/scim/v2/enterprises/" + e + "/"][j - 6]
    ensures SafeValue(v)
  {
    if j == 6 {
      EnterpriseUrlSafe(urls.web, e, "");
      assert v == urls.web + "/enterprises/" + e + "";
    } else if j == 7 {
      EnterpriseUrlSafe(urls.web, e, "/saml/consume");
    } else if j == 8 {
      EnterpriseUrlSafe(urls.web, e, "/sso");
    } else if j == 9 {
      EnterpriseUrlSafe(urls.web, e, "/saml/sls");
    } else if j == 10 {
      EnterpriseUrlSafe(urls.web, e, "/settings/saml_provider/edit");
    } else if j == 11 {
      TokenPathBraceFree();
      SafeThenBraceFree(urls.web, EnvUrls.TokenPath);
    } else if j == 12 {
      EnterpriseUrlSafe(urls.web, e, "/settings/single_sign_on_configuration");
    } else {
      BraceFreeConcat("/scim/v2/enterprises/", e);
      BraceFreeConcat("/scim/v2/enterprises/" + e, "/");
      SafeThenBraceFree(urls.api, "/scim/v2/enterprises/" + e + "/");
      assert v == urls.api + ("/scim/v2/enterprises/" + e + "/");
    }
  }

  lemma SetupPlanInert(enterpriseName: string, domain: string, ssoType: string, envType: string, date: string)
    requires SafeValue(enterpriseName) && SafeValue(domain) && SafeValue(envType) && SafeValue(date)
    requires ssoType == "saml" || ssoType == "oidc"
    ensures InertValues(SetupPlanVariables(enterpriseName, domain, ssoType, envType, date))
  {
    var vars := SetupPlanVariables(enterpriseName, domain, ssoType, envType, date);
    var vals := SetupPlanValues(enterpriseName, domain, ssoType, envType, date);
    SetupPlanKeyWords();
    forall i, j | 0 <= i <= j < |vars| ensures CannotForm(vars[j].1, Placeholder(vars[i].0)) {
      if j == 3 {
        SsoTypeCannotForm(ssoType, i);
      } else {
        SetupPlanValuesSafe(enterpriseName, domain, ssoType, envType, date, j);
        SafeValueCannotForm(vals[j], SetupPlanKeys[i]);
      }
    }
  }

  /**
   * With safe free-text inputs and a valid SSO type, no placeholder of the table's keys
   * is left in the processed template.
   */
  lemma SetupPlanLeavesNoPlaceholder(content: string, enterpriseName: string, domain: string, ssoType: string,
                                     envType: string, date: string, k: nat)
    requires SafeValue(enterpriseName) && SafeValue(domain) && SafeValue(envType) && SafeValue(date)
    requires ssoType == "saml" || ssoType == "oidc"
    requires k < |SetupPlanKeys|
    ensures Free(Substitute(content, SetupPlanVariables(enterpriseName, domain, ssoType, envType, date)),
                 Placeholder(SetupPlanKeys[k]))
  {
    SetupPlanInert(enterpriseName, domain, ssoType, envType, date);
    SubstituteLeavesNoPlaceholder(content, SetupPlanVariables(enterpriseName, domain, ssoType, envType, date), k);
  }

  // ---------------------------------------------------------------- output file

  /** `.replace(/[:.]/g, '-')`. */
  function Dashed(s: string): (r: string)
    ensures |r| == |s|
    ensures forall i :: 0 <= i < |s| ==> r[i] == (if s[i] == ':' || s[i] == '.' then '-' else s[i])
  {
    if s == [] then []
    else [if s[0] == ':' || s[0] == '.' then '-' else s[0]] + Dashed(s[1..])
  }

  /** `iso.slice(0, 19).replace(/[:.]/g, '-')`, where `slice` stops at the end of a shorter string. */
  function IsoStamp(iso: string): (t: string)
    ensures |t| == (if |iso| < 19 then |iso| else 19)
    ensures forall i :: 0 <= i < |t| ==> t[i] != ':' && t[i] != '.'
    ensures forall i :: 0 <= i < |t| && iso[i] != ':' && iso[i] != '.' ==> t[i] == iso[i]
  {
    Dashed(iso[..if |iso| < 19 then |iso| else 19])
  }

  const FilePrefix := "github-sso-setup-plan-"

  /** `getDefaultHtmlFilename` with the current time passed as its ISO-8601 rendering. */
  function DefaultHtmlFilename(enterpriseName: string, iso: string): string
  {
    FilePrefix + enterpriseName + "-" + IsoStamp(iso) + ".html"
  }

  /** The default name starts with the fixed prefix and the enterprise, then a stamp free of `:` and `.`, then `.html`. */
  lemma DefaultHtmlFilenameShape(enterpriseName: string, iso: string)
    ensures var f := DefaultHtmlFilename(enterpriseName, iso);
            var head := FilePrefix + enterpriseName + "-";
            StartsWith(f, head) && EndsWith(f, ".html") &&
            |f| == |head| + |IsoStamp(iso)| + 5 &&
            f[|head|..|f| - 5] == IsoStamp(iso)
  {
    var f := DefaultHtmlFilename(enterpriseName, iso);
    var head := FilePrefix + enterpriseName + "-";
    assert f == head + IsoStamp(iso) + ".html";
    assert f[..|head|] == head;
    assert f[|f| - 5..] == ".html";
  }

  /** For a `toISOString` rendering `YYYY-MM-DDTHH:mm:ss.sssZ` the stamp is `YYYY-MM-DDTHH-mm-ss`. */
  lemma IsoStampOfTimestamp(iso: string)
    requires |iso| == 24 && iso[13] == ':' && iso[16] == ':' && iso[19] == '.'
    requires forall i :: 0 <= i < 19 && i != 13 && i != 16 ==> iso[i] != ':' && iso[i] != '.'
    ensures IsoStamp(iso) == iso[..13] + "-" + iso[14..16] + "-" + iso[17..19]
  {
    var t := IsoStamp(iso);
    var u := iso[..13] + "-" + iso[14..16] + "-" + iso[17..19];
    assert |t| == |u| == 19;
    forall i | 0 <= i < 19 ensures t[i] == u[i] {
      if i < 13 { assert u[i] == iso[i]; }
      else if 13 < i < 16 { assert u[i] == iso[i]; }
      else if 16 < i { assert u[i] == iso[i]; }
    }
  }

  datatype PlanFile = PlanFile(path: string, html: string)

  const PlanTitlePrefix := "GitHub Enterprise SSO Setup Plan - "

  /** The given output path when it is a nonempty string, else the default name in the working directory. */
  function PlanPath(outputPath: Option<string>, cwd: string, enterpriseName: string, iso: string): (path: string)
    ensures Truthy(outputPath) ==> path == outputPath.value
    ensures !Truthy(outputPath) ==> EndsWith(path, "/" + DefaultHtmlFilename(enterpriseName, iso))
  {
    if Truthy(outputPath) then outputPath.value else cwd + "/" + DefaultHtmlFilename(enterpriseName, iso)
  }

  /**
   * `generateHtmlSetupPlan`: process the template for the SSO type with the setup-plan
   * table, convert it with `toHtml` under the plan's title, and name the file to write.
   * `localeDate` and `iso` are the two renderings of the current time.
   */
  method GenerateHtmlSetupPlan(templates: map<string, string>, templateDir: string, cwd: string,
                               enterpriseName: string, domain: string, ssoType: string,
                               outputPath: Option<string>, envType: string,
                               localeDate: string, iso: string, toHtml: (string, string) -> string)
    returns (r: Result<PlanFile, string>)
    ensures var name := TemplateName(ssoType);
            name !in templates ==>
              r == Err(FailurePrefix(name) + TemplateNotFound + TemplatePath(templateDir, name))
    ensures var name := TemplateName(ssoType);
            var vars := SetupPlanVariables(enterpriseName, domain, ssoType, envType, localeDate);
            name in templates ==>
              r == Ok(PlanFile(PlanPath(outputPath, cwd, enterpriseName, iso),
                               toHtml(Substitute(templates[name], vars), PlanTitlePrefix + enterpriseName)))
  {
    var name := TemplateName(ssoType);
    var vars := SetupPlanVariables(enterpriseName, domain, ssoType, envType, localeDate);
    var content := ProcessTemplate(templates, templateDir, name, vars);
    if content.Err? {
      return Err(content.error);
    }
    var html := toHtml(content.value, PlanTitlePrefix + enterpriseName);
    var path := PlanPath(outputPath, cwd, enterpriseName, iso);
    return Ok(PlanFile(path, html));
  }
}
