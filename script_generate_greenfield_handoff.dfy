/**
 * The handoff generator of scripts/utils/generate_greenfield_handoff.py: every `{{key}}`
 * placeholder of the template is replaced by its value, one key after another in the order of
 * the variables file. Reading and writing files are left to the caller; the values are taken
 * already rendered by `str`.
 */
module GreenfieldHandoff {
  import opened Wrappers
  import opened Strs

  /** Where the handoff is always written. */
  const OUTPUT_PATH: string := "tmp/cursor-handoff-greenfield.md"

  /** `f'{{{{{key}}}}}'`: the key between doubled braces. */
  function Placeholder(key: string): (p: string)
    ensures |p| == |key| + 4
  {
    "{{" + key + "}}"
  }

  /** The template after the first `|vars|` replacements, in order. */
  function Substituted(content: string, vars: seq<(string, string)>): string
    decreases |vars|
  {
    if vars == [] then content
    else
      var last := vars[|vars| - 1];
      ReplaceAll(Substituted(content, vars[..|vars| - 1]), Placeholder(last.0), last.1)
  }

  /** `generate_handoff`: the loop reassigning `content` through one `replace` per key. */
  method GenerateHandoff(template: string, vars: seq<(string, string)>) returns (content: string)
    ensures content == Substituted(template, vars)
  {
    content := template;
    var i := 0;
    while i < |vars|
      invariant 0 <= i <= |vars|
      invariant content == Substituted(template, vars[..i])
    {
      var (key, value) := vars[i];
      assert vars[..i + 1][..i] == vars[..i];
      content := ReplaceAll(content, Placeholder(key), value);
      i := i + 1;
    }
    assert vars[..i] == vars;
  }

  /** A template naming none of the keys is written unchanged. */
  lemma {:induction false} SubstitutedWithoutPlaceholders(content: string, vars: seq<(string, string)>)
    requires forall k :: 0 <= k < |vars| ==> !Contains(content, Placeholder(vars[k].0))
    ensures Substituted(content, vars) == content
    decreases |vars|
  {
    if vars != [] {
      var front := vars[..|vars| - 1];
      assert forall k :: 0 <= k < |front| ==> front[k] == vars[k];
      SubstitutedWithoutPlaceholders(content, front);
      ReplaceAllAbsent(content, Placeholder(vars[|vars| - 1].0), vars[|vars| - 1].1);
    }
  }

  /** A key is plain when it has no braces of its own. */
  predicate Plain(key: string)
  {
    '{' !in key && '}' !in key
  }

  /** The placeholder of a plain key contains no other key's placeholder. */
  lemma PlaceholderHoldsNoOther(key: string, other: string)
    requires Plain(key) && other != key
    ensures !Contains(Placeholder(key), Placeholder(other))
  {
    var p := Placeholder(key);
    var q := Placeholder(other);
    forall i | 0 <= i <= |p| - |q| ensures !OccursAt(p, q, i) {
      if i == 0 {
        if |other| < |key| {
          // `q` closes at `|other| + 2`, where `p` still holds a character of the plain key.
          assert q[|other| + 2] == '}';
          assert p[|other| + 2] == key[|other|];
          assert key[|other|] in key;
        } else {
          assert |other| == |key|;
          assert exists k :: 0 <= k < |key| && other[k] != key[k];
          var k :| 0 <= k < |key| && other[k] != key[k];
          assert q[k + 2] == other[k] && p[k + 2] == key[k];
        }
      } else {
        // `q` opens with `{{`, and `p` has braces only at both ends.
        assert q[1] == '{';
        assert p[i + 1] == key[i - 1];
        assert key[i - 1] in key;
      }
    }
  }

  /**
   * A placeholder whose key is not among the variables is left verbatim, whatever the variables
   * are replaced by.
   */
  lemma UnknownPlaceholderKept(key: string, vars: seq<(string, string)>)
    requires Plain(key)
    requires forall k :: 0 <= k < |vars| ==> vars[k].0 != key
    ensures Substituted(Placeholder(key), vars) == Placeholder(key)
  {
    forall k | 0 <= k < |vars| ensures !Contains(Placeholder(key), Placeholder(vars[k].0)) {
      PlaceholderHoldsNoOther(key, vars[k].0);
    }
    SubstitutedWithoutPlaceholders(Placeholder(key), vars);
  }

  /**
   * A placeholder whose key is not among the plain keys of the variables survives the whole
   * substitution wherever it stands in the template.
   */
  lemma {:induction false} UnknownPlaceholderSurvives(template: string, key: string, vars: seq<(string, string)>)
    requires Plain(key)
    requires forall k :: 0 <= k < |vars| ==> Plain(vars[k].0) && vars[k].0 != key
    ensures Contains(template, Placeholder(key)) ==> Contains(Substituted(template, vars), Placeholder(key))
    decreases |vars|
  {
    if vars != [] && Contains(template, Placeholder(key)) {
      var front := vars[..|vars| - 1];
      var (other, value) := vars[|vars| - 1];
      assert forall k :: 0 <= k < |front| ==> front[k] == vars[k];
      UnknownPlaceholderSurvives(template, key, front);
      var c := Substituted(template, front);
      var p := Placeholder(key);
      var i :| 0 <= i <= |c| - |p| && OccursAt(c, p, i);
      var before, after := c[..i], c[i + |p|..];
      assert c == before + p + after;
      PlaceholdersApart(before, key, after, other);
      ReplaceAllKeeps(before, p, after, Placeholder(other), value);
      var r := ReplaceAll(before, Placeholder(other), value);
      var rest := ReplaceAll(after, Placeholder(other), value);
      assert (r + p + rest)[|r|..|r| + |p|] == p;
      assert OccursAt(r + p + rest, p, |r|);
    }
  }

  /**
   * Two placeholders of different plain keys cannot overlap: one opens with `{{` that the other
   * holds only at its start, and a shared start would make the keys equal.
   */
  lemma PlaceholdersApart(before: string, key: string, after: string, other: string)
    requires Plain(key) && Plain(other) && other != key
    ensures Untouched(before + Placeholder(key) + after, Placeholder(other), |before|, |before| + |key| + 4)
  {
    var p := Placeholder(key);
    var q := Placeholder(other);
    var s := before + p + after;
    var i := |before|;
    assert forall t :: 0 <= t < |p| ==> s[i + t] == p[t];
    forall j | OccursAt(s, q, j) ensures j + |q| <= i || i + |p| <= j {
      assert forall t :: 0 <= t < |q| ==> s[j + t] == q[t];
      if j + |q| > i && j < i + |p| {
        if j == i {
          PlaceholdersDiffer(key, other);
        } else if i < j {
          PlaceholderStartsOnlyOnce(key, other, j - i);
        } else {
          PlaceholderStartsOnlyOnce(other, key, i - j);
        }
      }
    }
  }

  /** Placeholders of different plain keys differ somewhere in their common length. */
  lemma PlaceholdersDiffer(key: string, other: string)
    requires Plain(key) && Plain(other) && other != key
    ensures exists t :: 0 <= t < |Placeholder(key)| && t < |Placeholder(other)| && Placeholder(key)[t] != Placeholder(other)[t]
  {
    var p := Placeholder(key);
    var q := Placeholder(other);
    if |other| < |key| {
      assert q[|other| + 2] == '}' && p[|other| + 2] == key[|other|] && key[|other|] in key;
    } else if |key| < |other| {
      assert p[|key| + 2] == '}' && q[|key| + 2] == other[|key|] && other[|key|] in other;
    } else {
      assert exists t :: 0 <= t < |key| && other[t] != key[t];
      var t :| 0 <= t < |key| && other[t] != key[t];
      assert q[t + 2] == other[t] && p[t + 2] == key[t];
    }
  }

  /** A placeholder started inside a plain key's placeholder disagrees with it where they overlap. */
  lemma PlaceholderStartsOnlyOnce(key: string, other: string, d: nat)
    requires Plain(key) && 0 < d < |Placeholder(key)|
    ensures exists t :: 0 <= t < |Placeholder(other)| && d + t < |Placeholder(key)|
                        && Placeholder(key)[d + t] != Placeholder(other)[t]
  {
    var p := Placeholder(key);
    var q := Placeholder(other);
    if d == 1 {
      if |key| > 0 {
        assert p[2] == key[0] && key[0] in key;
      }
      assert p[d + 1] != q[1];
    } else if d < |key| + 2 {
      assert p[d] == key[d - 2] && key[d - 2] in key;
      assert p[d + 0] != q[0];
    } else {
      assert p[d + 0] != q[0];
    }
  }

  /** A template that is just one variable's placeholder becomes that variable's value. */
  lemma SinglePlaceholderReplaced(key: string, value: string)
    ensures Substituted(Placeholder(key), [(key, value)]) == value
  {
    assert [(key, value)][..0] == [];
    ReplaceAllWhole(Placeholder(key), value);
  }

  /**
   * The `__main__` block: exactly two arguments (a template path and a variables file) are
   * required; then the handoff is written to the fixed output path.
   */
  method Run(argv: seq<string>, template: string, vars: seq<(string, string)>)
    returns (code: int, written: Option<(string, string)>)
    ensures |argv| != 3 ==> code == 1 && written.None?
    ensures |argv| == 3 ==> code == 0 && written == Some((OUTPUT_PATH, Substituted(template, vars)))
  {
    if |argv| != 3 {
      return 1, None;
    }
    var content := GenerateHandoff(template, vars);
    return 0, Some((OUTPUT_PATH, content));
  }
}
