/** Flags and their rendering as command-line tokens.

    The class that renders one flag (GcloudArgs, with its `get` overloads for a string, a
    boolean and a path value) is not part of this model: its token format is unknown here.
    It is therefore a parameter, a `FlagRenderer`, of every operation that emits flags, and
    every property below holds whatever renderer is supplied. */
module Flags {
  import opened Wrappers

  /** The value handed to a flag, one case per overload of the renderer. */
  datatype ArgValue = Text(text: string) | Switch(on: bool) | FilePath(path: string)

  /** Renders a flag name and its value, which may be absent (null), as tokens. */
  type FlagRenderer = (string, Option<ArgValue>) -> seq<string>

  /** A flag group whose value is present. */
  datatype Flag = Flag(name: string, value: ArgValue)

  /** A nullable string handed to the string overload. */
  function TextArg(s: Option<string>): Option<ArgValue>
  {
    match s
    case None => None
    case Some(t) => Some(Text(t))
  }

  /** A nullable boolean handed to the boolean overload. */
  function SwitchArg(b: Option<bool>): Option<ArgValue>
  {
    match b
    case None => None
    case Some(on) => Some(Switch(on))
  }

  /** A nullable path handed to the path overload. */
  function PathArg(p: Option<string>): Option<ArgValue>
  {
    match p
    case None => None
    case Some(path) => Some(FilePath(path))
  }

  /** The flag group for an optional value: one group when present, none when absent. */
  function OptionalFlag(name: string, v: Option<ArgValue>): seq<Flag>
  {
    match v
    case None => []
    case Some(x) => [Flag(name, x)]
  }

  /** `command` with the tokens of each group of `flags` appended in turn, in list order,
      as successive `addAll` calls on a growing command line leave it. */
  function AppendFlags(command: seq<string>, render: FlagRenderer, flags: seq<Flag>): seq<string>
  {
    if flags == [] then command
    else
      var last := flags[|flags| - 1];
      AppendFlags(command, render, flags[..|flags| - 1]) + render(last.name, Some(last.value))
  }

  /** The tokens of a list of groups on their own. */
  function Tokens(render: FlagRenderer, flags: seq<Flag>): seq<string>
  {
    AppendFlags([], render, flags)
  }

  /** Appending one more group appends exactly that group's tokens. */
  lemma AppendFlagsSnoc(command: seq<string>, render: FlagRenderer, flags: seq<Flag>, f: Flag)
    ensures AppendFlags(command, render, flags + [f]) ==
              AppendFlags(command, render, flags) + render(f.name, Some(f.value))
  {
    assert (flags + [f])[..|flags|] == flags;
  }

  /** Appending two lists of groups one after the other is appending their concatenation. */
  lemma {:induction false} AppendFlagsConcat(command: seq<string>, render: FlagRenderer,
                                             a: seq<Flag>, b: seq<Flag>)
    ensures AppendFlags(command, render, a + b) ==
              AppendFlags(AppendFlags(command, render, a), render, b)
    decreases |b|
  {
    if b == [] {
      assert a + b == a;
    } else {
      var init, last := b[..|b| - 1], b[|b| - 1];
      assert a + b == (a + init) + [last];
      assert b == init + [last];
      AppendFlagsConcat(command, render, a, init);
      AppendFlagsSnoc(command, render, a + init, last);
      AppendFlagsSnoc(AppendFlags(command, render, a), render, init, last);
    }
  }

  /** Appending groups keeps the command line already built and adds their tokens after it. */
  lemma {:induction false} AppendFlagsSplit(command: seq<string>, render: FlagRenderer,
                                            flags: seq<Flag>)
    ensures AppendFlags(command, render, flags) == command + Tokens(render, flags)
    decreases |flags|
  {
    if flags != [] {
      var init, last := flags[..|flags| - 1], flags[|flags| - 1];
      AppendFlagsSplit(command, render, init);
      assert (command + Tokens(render, init)) + render(last.name, Some(last.value))
          == command + (Tokens(render, init) + render(last.name, Some(last.value)));
    }
  }

  /** An optional group adds its flag's tokens when its value is present and nothing when
      it is absent. */
  lemma AppendOptionalFlag(command: seq<string>, render: FlagRenderer, name: string,
                           v: Option<ArgValue>)
    ensures AppendFlags(command, render, OptionalFlag(name, v)) ==
              if v.Some? then command + render(name, v) else command
  {
    if v.Some? {
      assert OptionalFlag(name, v)[..0] == [];
    }
  }

  /** The values given to the flag `name` in a list of groups, in list order. */
  function ValuesOf(flags: seq<Flag>, name: string): seq<ArgValue>
  {
    if flags == [] then []
    else (if flags[0].name == name then [flags[0].value] else []) + ValuesOf(flags[1..], name)
  }

  /** Looking a flag up distributes over concatenation of flag lists. */
  lemma {:induction false} ValuesOfAppend(a: seq<Flag>, b: seq<Flag>, name: string)
    ensures ValuesOf(a + b, name) == ValuesOf(a, name) + ValuesOf(b, name)
  {
    if a == [] {
      assert a + b == b;
    } else {
      var head := if a[0].name == name then [a[0].value] else [];
      assert (a + b)[0] == a[0];
      assert (a + b)[1..] == a[1..] + b;
      assert ValuesOf(a + b, name) == head + ValuesOf(a[1..] + b, name);
      ValuesOfAppend(a[1..], b, name);
      assert ValuesOf(a, name) == head + ValuesOf(a[1..], name);
      assert head + (ValuesOf(a[1..], name) + ValuesOf(b, name))
          == (head + ValuesOf(a[1..], name)) + ValuesOf(b, name);
    }
  }

  /** The values of an optional group: the value alone when present and named so. */
  lemma OptionalFlagValues(name: string, v: Option<ArgValue>, query: string)
    ensures ValuesOf(OptionalFlag(name, v), query) ==
              if v.Some? && name == query then [v.value] else []
  {
    if v.Some? {
      assert OptionalFlag(name, v)[1..] == [];
    }
  }
}
