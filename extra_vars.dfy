/**
 * The single `-e` argument that carries extra variables to the playbook
 * engine: every binding rendered as `key=value`, the tokens joined by one
 * space. `Parse` is the key=value reading of such an argument (split on
 * spaces, then each token at its first `=`), the independent definition
 * against which rendering is checked.
 */
module ExtraVars {
  import opened Results
  import opened Strings

  /** `f"{k}={v}"` for one binding. */
  function Assignment(binding: (string, string)): string
  {
    binding.0 + "=" + binding.1
  }

  /** `[f"{k}={v}" for k, v in vars.items()]`, in the map's iteration order. */
  function Assignments(vars: seq<(string, string)>): (tokens: seq<string>)
    ensures |tokens| == |vars|
    ensures forall i :: 0 <= i < |vars| ==> tokens[i] == Assignment(vars[i])
  {
    if |vars| == 0 then []
    else [Assignment(vars[0])] + Assignments(vars[1..])
  }

  /**
   * `" ".join(...)` of the assignments. For plain bindings, splitting the
   * result on spaces gives back one `key=value` token per binding.
   */
  function Render(vars: seq<(string, string)>): (rendered: string)
    ensures |vars| > 0 && Plain(vars) ==> Split(rendered, ' ') == Assignments(vars)
  {
    var rendered := Join(Assignments(vars), " ");
    if |vars| > 0 && Plain(vars) then
      AssignmentsHaveNoSpace(vars);
      SplitJoin(Assignments(vars), ' ');
      rendered
    else
      rendered
  }

  lemma AssignmentsHaveNoSpace(vars: seq<(string, string)>)
    requires Plain(vars)
    ensures forall i :: 0 <= i < |vars| ==> ' ' !in Assignments(vars)[i]
  {
    forall i | 0 <= i < |vars| ensures ' ' !in Assignments(vars)[i] {
      assert Assignments(vars)[i] == vars[i].0 + "=" + vars[i].1;
    }
  }

  /** Reads a space-separated list of `key=value` tokens; `None` if a token has no `=`. */
  function Parse(arg: string): Option<seq<(string, string)>>
  {
    ParseTokens(Split(arg, ' '))
  }

  function ParseTokens(tokens: seq<string>): (r: Option<seq<(string, string)>>)
    ensures r.Some? ==> |r.value| == |tokens|
  {
    if |tokens| == 0 then Some([])
    else
      match Partition(tokens[0], '=')
      case None => None
      case Some(binding) =>
        match ParseTokens(tokens[1..])
        case None => None
        case Some(rest) => Some([binding] + rest)
  }

  /** Keys free of spaces and `=`, values free of spaces: what survives the round trip. */
  predicate Plain(vars: seq<(string, string)>)
  {
    forall i :: 0 <= i < |vars| ==> ' ' !in vars[i].0 && '=' !in vars[i].0 && ' ' !in vars[i].1
  }

  lemma {:induction false} ParseAssignments(vars: seq<(string, string)>)
    requires Plain(vars)
    ensures ParseTokens(Assignments(vars)) == Some(vars)
  {
    if |vars| > 0 {
      PartitionAt(vars[0].0, vars[0].1, '=');
      assert Assignments(vars)[1..] == Assignments(vars[1..]);
      ParseAssignments(vars[1..]);
      assert [vars[0]] + vars[1..] == vars;
    }
  }

  /** Rendering a non-empty list of plain bindings and reading it back gives the same bindings, in order. */
  lemma {:induction false} RenderParse(vars: seq<(string, string)>)
    requires |vars| > 0 && Plain(vars)
    ensures Parse(Render(vars)) == Some(vars)
  {
    ParseAssignments(vars);
  }

  /**
   * A value holding a space is read back as two bindings: whoever controls
   * the value can add a variable of their own choosing.
   */
  lemma {:induction false} SpaceInValueAddsBinding(key: string, value: string, key2: string, value2: string)
    requires Plain([(key, value), (key2, value2)])
    ensures Parse(Render([(key, value + " " + key2 + "=" + value2)])) == Some([(key, value), (key2, value2)])
  {
    var pairs := [(key, value), (key2, value2)];
    assert pairs[0] == (key, value) && pairs[1] == (key2, value2);
    var first, second := key + "=" + value, key2 + "=" + value2;
    var arg := Render([(key, value + " " + key2 + "=" + value2)]);
    assert arg == first + [' '] + second by {
      var tokens := Assignments([(key, value + " " + key2 + "=" + value2)]);
      assert |tokens| == 1 && tokens[0] == key + "=" + (value + " " + key2 + "=" + value2);
    }
    assert Split(arg, ' ') == [first, second] by {
      assert ' ' !in key && ' ' !in value && ' ' !in key2 && ' ' !in value2;
      SplitAfterField(first, second, ' ');
      SplitWithoutSeparator(second, ' ');
    }
    assert Assignments(pairs) == [first, second];
    ParseAssignments(pairs);
  }
}
