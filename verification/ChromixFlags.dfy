/**
 The list of Chromix launch arguments as a store of named values: reading a flag, setting it,
 fields with aliases, the FakeShadowRoot feature, and raw text entry.
 */
module ChromixFlags {
  import opened Common
  import opened Strings

  /** A flag's value: undefined (absent), null (the bare flag) or text after "=". */
  datatype FlagValue = Undefined | Null | Text(text: string)

  /** options.args: not set, a list of strings, or something else. */
  datatype Args = Missing | List(list: seq<string>) | Malformed

  /** Any other option; `Shown` stands for values of other kinds, by the text they display as. */
  datatype Value = Void | Nothing | Str(text: string) | Bool(value: bool) | Shown(text: string)

  datatype Options = Options(args: Args, others: map<string, Value>)

  datatype FieldState = FieldState(name: string, value: FlagValue, present: bool, count: nat)

  datatype Error = BadArgs | UnknownParameter | BadLine(index: nat)

  // ----- one argument -----

  function IndexOf(s: string, c: char): (i: nat)
    ensures i <= |s| && (forall k :: 0 <= k < i ==> s[k] != c) && (i < |s| ==> s[i] == c)
  {
    if s == "" || s[0] == c then 0 else 1 + IndexOf(s[1..], c)
  }

  function ArgName(arg: string): string {
    arg[..IndexOf(arg, '=')]
  }

  function ArgValue(arg: string): FlagValue {
    var i := IndexOf(arg, '=');
    if i == |arg| then Null else Text(arg[i + 1..])
  }

  /** The argument that gives `name` the value v. */
  function Argument(name: string, v: FlagValue): Option<string> {
    match v
    case Undefined => None
    case Null => Some(name)
    case Text(text) => Some(name + "=" + text)
  }

  lemma FirstIndex(s: string, c: char, i: nat)
    requires i <= |s| && c !in s[..i] && (i < |s| ==> s[i] == c)
    ensures IndexOf(s, c) == i
  {
    assert forall k :: 0 <= k < i ==> s[..i][k] == s[k];
  }

  /** An argument reads back as it was made, unless "=" is part of the name. */
  lemma ArgumentReads(name: string, v: FlagValue)
    requires v != Undefined && '=' !in name
    ensures ArgName(Argument(name, v).value) == name && ArgValue(Argument(name, v).value) == v
  {
    var arg := Argument(name, v).value;
    assert arg[..|name|] == name;
    FirstIndex(arg, '=', |name|);
    if v.Text? {
      assert arg[|name| + 1..] == v.text;
    }
  }

  lemma ArgumentInverse(arg: string)
    ensures Argument(ArgName(arg), ArgValue(arg)) == Some(arg)
  {
    var i := IndexOf(arg, '=');
    assert i == |arg| ==> arg[..i] == arg;
    assert i < |arg| ==> arg == arg[..i] + "=" + arg[i + 1..];
  }

  lemma NamesHaveNoEquals(arg: string)
    ensures '=' !in ArgName(arg)
  {}

  // ----- the argument list -----

  /** The arguments with this name, and the arguments without it, in order. */
  function Named(args: seq<string>, name: string): seq<string> {
    if args == [] then []
    else if ArgName(args[0]) == name then [args[0]] + Named(args[1..], name)
    else Named(args[1..], name)
  }

  function Others(args: seq<string>, name: string): seq<string> {
    if args == [] then []
    else if ArgName(args[0]) == name then Others(args[1..], name)
    else [args[0]] + Others(args[1..], name)
  }

  function ToSeq<T>(o: Option<T>): seq<T> {
    if o.Some? then [o.value] else []
  }

  /** The first argument called `name` is replaced, later ones go; with none, the new one comes last. */
  function SetArgs(args: seq<string>, name: string, replacement: Option<string>): seq<string> {
    if args == [] then ToSeq(replacement)
    else if ArgName(args[0]) == name then ToSeq(replacement) + Others(args[1..], name)
    else [args[0]] + SetArgs(args[1..], name, replacement)
  }

  function ArgsOf(o: Options): Result<seq<string>, Error> {
    match o.args
    case Missing => Ok([])
    case List(list) => Ok(list)
    case Malformed => Err(BadArgs)
  }

  function UsableArgs(o: Options): seq<string> {
    if ArgsOf(o).Ok? then ArgsOf(o).value else []
  }

  function ReadArgs(args: seq<string>, name: string): FieldState {
    var matches := Named(args, name);
    FieldState(name, if matches == [] then Undefined else ArgValue(matches[|matches| - 1]), matches != [], |matches|)
  }

  function ReadFlag(o: Options, name: string): FieldState {
    ReadArgs(UsableArgs(o), name)
  }

  /** Equal arguments leave the options as they are, even when they were missing. */
  function SetFlag(o: Options, name: string, v: FlagValue): Result<Options, Error> {
    match ArgsOf(o)
    case Err(e) => Err(e)
    case Ok(args) =>
      var next := SetArgs(args, name, Argument(name, v));
      Ok(if next == args then o else o.(args := List(next)))
  }

  /** What it leaves is what it computed, whether or not it could return the options unchanged. */
  lemma SetFlagArgs(o: Options, name: string, v: FlagValue)
    requires SetFlag(o, name, v).Ok?
    ensures UsableArgs(SetFlag(o, name, v).value) == SetArgs(UsableArgs(o), name, Argument(name, v))
    ensures SetFlag(o, name, v).value.others == o.others && ArgsOf(SetFlag(o, name, v).value).Ok?
  {}

  // ----- reading and setting: the laws -----

  lemma {:induction false} OthersAreOthers(args: seq<string>, name: string, m: string)
    ensures Named(Others(args, name), name) == [] && Others(Others(args, name), name) == Others(args, name)
    ensures m != name ==> Named(Others(args, name), m) == Named(args, m)
  {
    if args != [] {
      OthersAreOthers(args[1..], name, m);
      if ArgName(args[0]) != name {
        assert Others(args, name)[1..] == Others(args[1..], name);
      }
    }
  }

  lemma {:induction false} NamedConcat(a: seq<string>, b: seq<string>, name: string)
    ensures Named(a + b, name) == Named(a, name) + Named(b, name)
  {
    if a == [] {
      assert a + b == b;
    } else {
      NamedConcat(a[1..], b, name);
      assert (a + b)[1..] == a[1..] + b && (a + b)[0] == a[0];
      Associate([a[0]], Named(a[1..], name), Named(b, name));
    }
  }

  lemma {:induction false} OthersConcat(a: seq<string>, b: seq<string>, name: string)
    ensures Others(a + b, name) == Others(a, name) + Others(b, name)
  {
    if a == [] {
      assert a + b == b;
    } else {
      OthersConcat(a[1..], b, name);
      assert (a + b)[1..] == a[1..] + b && (a + b)[0] == a[0];
      Associate([a[0]], Others(a[1..], name), Others(b, name));
    }
  }

  lemma Associate(a: seq<string>, b: seq<string>, c: seq<string>)
    ensures a + (b + c) == a + b + c
  {}

  lemma Shift(args: seq<string>, k: nat)
    requires k < |args|
    ensures args[..k + 1] == [args[0]] + args[1..][..k] && args[k + 1..] == args[1..][k..] && args[..k + 1][1..] == args[1..][..k]
  {}

  /** Where the set argument goes: what stood before the first occurrence, the new one, the rest. */
  lemma {:induction false} SetSplits(args: seq<string>, name: string, replacement: Option<string>) returns (i: nat)
    ensures i <= |args| && Named(args[..i], name) == [] && (i < |args| ==> ArgName(args[i]) == name)
    ensures SetArgs(args, name, replacement) == args[..i] + ToSeq(replacement) + Others(args[i..], name)
  {
    if args == [] {
      i := 0;
    } else if ArgName(args[0]) == name {
      i := 0;
      assert args[..0] == [] && args[0..] == args;
    } else {
      var k := SetSplits(args[1..], name, replacement);
      i := k + 1;
      Shift(args, k);
      Associate([args[0]], args[1..][..k], ToSeq(replacement));
      Associate([args[0]], args[1..][..k] + ToSeq(replacement), Others(args[i..], name));
    }
  }

  lemma {:induction false} PrefixIsOthers(args: seq<string>, name: string)
    requires Named(args, name) == []
    ensures Others(args, name) == args
  {
    if args != [] {
      PrefixIsOthers(args[1..], name);
    }
  }

  /**
   Setting keeps every other argument, value and order; and leaves exactly the new argument under
   the name, provided the new argument is called that.
   */
  lemma SetKeepsOthers(args: seq<string>, name: string, replacement: Option<string>)
    requires replacement.Some? ==> ArgName(replacement.value) == name
    ensures Others(SetArgs(args, name, replacement), name) == Others(args, name)
    ensures Named(SetArgs(args, name, replacement), name) == ToSeq(replacement)
  {
    var i := SetSplits(args, name, replacement);
    var front, rest := args[..i], Others(args[i..], name);
    NamedConcat(front, ToSeq(replacement), name);
    NamedConcat(front + ToSeq(replacement), rest, name);
    OthersConcat(front, ToSeq(replacement), name);
    OthersConcat(front + ToSeq(replacement), rest, name);
    OthersAreOthers(args[i..], name, name);
    PrefixIsOthers(front, name);
    assert args == front + args[i..];
    OthersConcat(front, args[i..], name);
    if replacement.Some? {
      var one := [replacement.value];
      assert Named(one, name) == one + Named([], name) && Others(one, name) == Others([], name);
    }
  }

  /** Every other name reads as before, unless the new argument bears that very name. */
  lemma SetKeepsOtherNames(args: seq<string>, name: string, replacement: Option<string>, m: string)
    requires m != name && (replacement.Some? ==> ArgName(replacement.value) != m)
    ensures Named(SetArgs(args, name, replacement), m) == Named(args, m)
  {
    var i := SetSplits(args, name, replacement);
    var front, rest := args[..i], Others(args[i..], name);
    NamedConcat(front, ToSeq(replacement), m);
    NamedConcat(front + ToSeq(replacement), rest, m);
    OthersAreOthers(args[i..], name, m);
    assert args == front + args[i..];
    NamedConcat(front, args[i..], m);
    if replacement.Some? {
      assert Named([replacement.value], m) == Named([], m);
    }
  }

  lemma {:induction false} NoSuchName(args: seq<string>, name: string)
    requires '=' in name
    ensures Named(args, name) == [] && Others(args, name) == args
  {
    if args != [] {
      NamesHaveNoEquals(args[0]);
      NoSuchName(args[1..], name);
    }
  }

  /** One occurrence with this value, or none for undefined. */
  function Exactly(name: string, v: FlagValue): FieldState {
    FieldState(name, v, v != Undefined, if v == Undefined then 0 else 1)
  }

  /**
   Set then read: the value comes back, with one occurrence (none for undefined), exactly when
   the value is undefined or the name has no "=".
   */
  lemma SetThenRead(o: Options, name: string, v: FlagValue)
    requires SetFlag(o, name, v).Ok?
    ensures ReadFlag(SetFlag(o, name, v).value, name) == Exactly(name, v) <==> v == Undefined || '=' !in name
    ensures '=' !in name ==> Others(UsableArgs(SetFlag(o, name, v).value), name) == Others(UsableArgs(o), name)
  {
    SetFlagArgs(o, name, v);
    var args, next := UsableArgs(o), UsableArgs(SetFlag(o, name, v).value);
    if '=' in name {
      NoSuchName(next, name);
    } else {
      if v != Undefined {
        ArgumentReads(name, v);
      }
      SetKeepsOthers(args, name, Argument(name, v));
    }
  }

  /** Setting one flag leaves the reading of every other name alone. */
  lemma SetThenReadOther(o: Options, name: string, v: FlagValue, m: string)
    requires SetFlag(o, name, v).Ok? && '=' !in name && m != name
    ensures ReadFlag(SetFlag(o, name, v).value, m) == ReadFlag(o, m)
  {
    SetFlagArgs(o, name, v);
    if v != Undefined {
      ArgumentReads(name, v);
    }
    SetKeepsOtherNames(UsableArgs(o), name, Argument(name, v), m);
  }

  /** A later set to a defined value forgets an earlier one. */
  lemma {:induction false} SetTwice(args: seq<string>, name: string, first: Option<string>, second: Option<string>)
    requires first.Some? && ArgName(first.value) == name
    ensures SetArgs(SetArgs(args, name, first), name, second) == SetArgs(args, name, second)
  {
    if args == [] {
      assert [first.value][1..] == [];
    } else if ArgName(args[0]) == name {
      OthersAreOthers(args[1..], name, name);
      assert ([first.value] + Others(args[1..], name))[1..] == Others(args[1..], name);
    } else {
      SetTwice(args[1..], name, first, second);
      assert ([args[0]] + SetArgs(args[1..], name, first))[1..] == SetArgs(args[1..], name, first);
    }
  }

  lemma {:induction false} SetNothingTwice(args: seq<string>, name: string)
    ensures SetArgs(args, name, None) == Others(args, name)
    ensures SetArgs(SetArgs(args, name, None), name, None) == SetArgs(args, name, None)
  {
    OthersAreOthers(args, name, name);
    RemovingIsOthers(args, name);
    RemovingIsOthers(Others(args, name), name);
  }

  lemma {:induction false} RemovingIsOthers(args: seq<string>, name: string)
    ensures SetArgs(args, name, None) == Others(args, name)
  {
    if args != [] && ArgName(args[0]) != name {
      RemovingIsOthers(args[1..], name);
    } else if args != [] {
      assert [] + Others(args[1..], name) == Others(args[1..], name);
    }
  }

  lemma {:induction false} AppendsUnnamed(args: seq<string>, name: string, replacement: Option<string>)
    requires Named(args, name) == []
    ensures SetArgs(args, name, replacement) == args + ToSeq(replacement)
  {
    if args == [] {
      assert args + ToSeq(replacement) == ToSeq(replacement);
    } else {
      AppendsUnnamed(args[1..], name, replacement);
      assert [args[0]] + (args[1..] + ToSeq(replacement)) == args + ToSeq(replacement);
    }
  }

  /** Setting the same value twice is setting it once, exactly when the value is undefined or the name has no "=". */
  lemma SetIsIdempotent(o: Options, name: string, v: FlagValue)
    requires SetFlag(o, name, v).Ok?
    ensures SetFlag(SetFlag(o, name, v).value, name, v) == SetFlag(o, name, v) <==> v == Undefined || '=' !in name
  {
    SetFlagArgs(o, name, v);
    var next := UsableArgs(SetFlag(o, name, v).value);
    if v == Undefined {
      SetNothingTwice(UsableArgs(o), name);
    } else if '=' !in name {
      ArgumentReads(name, v);
      SetTwice(UsableArgs(o), name, Argument(name, v), Argument(name, v));
    } else {
      NoSuchName(next, name);
      AppendsUnnamed(next, name, Argument(name, v));
      assert |SetArgs(next, name, Argument(name, v))| == |next| + 1;
      SetFlagArgs(SetFlag(o, name, v).value, name, v);
    }
  }

  lemma {:induction false} LengthOfSet(args: seq<string>, name: string, replacement: Option<string>)
    ensures |Named(args, name)| + |Others(args, name)| == |args|
    ensures |SetArgs(args, name, replacement)| == |Others(args, name)| + |ToSeq(replacement)|
  {
    if args != [] {
      LengthOfSet(args[1..], name, replacement);
    }
  }

  lemma {:induction false} SetToItself(args: seq<string>, name: string, arg: string)
    requires Named(args, name) == [arg]
    ensures SetArgs(args, name, Some(arg)) == args
  {
    if ArgName(args[0]) == name {
      assert Named(args[1..], name) == [] by { assert Named(args, name)[1..] == Named(args[1..], name); }
      assert args[0] == Named(args, name)[0];
      PrefixIsOthers(args[1..], name);
    } else {
      SetToItself(args[1..], name, arg);
    }
  }

  lemma {:induction false} NamedHaveTheName(args: seq<string>, name: string)
    ensures forall arg :: arg in Named(args, name) ==> ArgName(arg) == name
  {
    if args != [] {
      NamedHaveTheName(args[1..], name);
    }
  }

  /** Read then set: setting what is read changes nothing, exactly when the name occurs at most once. */
  lemma ReadThenSet(o: Options, name: string)
    requires ArgsOf(o).Ok?
    ensures SetFlag(o, name, ReadFlag(o, name).value) == Ok(o) <==> ReadFlag(o, name).count <= 1
  {
    var args, matches := UsableArgs(o), Named(UsableArgs(o), name);
    var v := ReadFlag(o, name).value;
    LengthOfSet(args, name, Argument(name, v));
    if matches == [] {
      RemovingIsOthers(args, name);
      PrefixIsOthers(args, name);
    } else {
      NamedHaveTheName(args, name);
      var last := matches[|matches| - 1];
      assert last in matches;
      ArgumentInverse(last);
      assert Argument(name, v) == Some(last);
      if |matches| == 1 {
        assert matches == [last];
        SetToItself(args, name, last);
      }
    }
  }

  // ----- what is read, in terms of the strings -----

  /** The argument is the bare name, or the name followed by "=" and a value. */
  predicate Bears(arg: string, name: string) {
    arg == name || name + "=" <= arg
  }

  lemma NameIff(arg: string, name: string)
    requires '=' !in name
    ensures ArgName(arg) == name <==> Bears(arg, name)
    ensures Bears(arg, name) ==> ArgValue(arg) == if arg == name then Null else Text(arg[|name| + 1..])
  {
    var i := IndexOf(arg, '=');
    assert i < |arg| ==> arg[..i + 1] == arg[..i] + "=";
    assert i == |arg| ==> arg[..i] == arg;
    if arg == name {
      FirstIndex(arg, '=', |name|);
    } else if name + "=" <= arg {
      assert arg[..|name|] == (name + "=")[..|name|] == name && arg[|name|] == (name + "=")[|name|];
      FirstIndex(arg, '=', |name|);
    }
  }

  function Bearers(args: seq<string>, name: string): set<int> {
    set i | 0 <= i < |args| && Bears(args[i], name)
  }

  lemma NamedSnoc(args: seq<string>, arg: string, name: string)
    requires '=' !in name
    ensures Named(args + [arg], name) == Named(args, name) + if Bears(arg, name) then [arg] else []
  {
    NameIff(arg, name);
    NamedConcat(args, [arg], name);
    assert Named([arg], name) == if Bears(arg, name) then [arg] + Named([], name) else Named([], name);
  }

  lemma {:induction false} CountsBearers(args: seq<string>, name: string)
    requires '=' !in name
    ensures |Named(args, name)| == |Bearers(args, name)|
  {
    if args != [] {
      var n := |args| - 1;
      CountsBearers(args[..n], name);
      assert args == args[..n] + [args[n]];
      NamedSnoc(args[..n], args[n], name);
      assert Bearers(args, name) == Bearers(args[..n], name) + if Bears(args[n], name) then {n} else {};
    }
  }

  lemma {:induction false} LastNamed(args: seq<string>, name: string, i: nat)
    requires '=' !in name && i < |args| && Bears(args[i], name) && forall j :: i < j < |args| ==> !Bears(args[j], name)
    ensures Named(args, name) != [] && Named(args, name)[|Named(args, name)| - 1] == args[i]
  {
    var n := |args| - 1;
    assert args == args[..n] + [args[n]];
    NamedSnoc(args[..n], args[n], name);
    if i < n {
      LastNamed(args[..n], name, i);
    }
  }

  /**
   A flag reads as the last argument that bears its name, and counts them all; it is absent
   exactly if none does.
   */
  lemma LastBearerIsRead(o: Options, name: string)
    requires '=' !in name
    ensures var (args, r) := (UsableArgs(o), ReadFlag(o, name));
            && r.count == |Bearers(args, name)| && (r.present <==> Bearers(args, name) != {})
            && (!r.present ==> r.value == Undefined)
            && forall i :: i in Bearers(args, name) && (forall j :: j in Bearers(args, name) ==> j <= i) ==>
                 r.value == if args[i] == name then Null else Text(args[i][|name| + 1..])
  {
    var args := UsableArgs(o);
    CountsBearers(args, name);
    assert Bearers(args, name) == {} <==> |Bearers(args, name)| == 0;
    forall i | i in Bearers(args, name) && forall j :: j in Bearers(args, name) ==> j <= i
      ensures ReadFlag(o, name).value == if args[i] == name then Null else Text(args[i][|name| + 1..])
    {
      forall j | i < j < |args|
        ensures !Bears(args[j], name)
      {
        assert j !in Bearers(args, name);
      }
      LastNamed(args, name, i);
      NameIff(args[i], name);
    }
  }

  // ----- fields -----

  datatype Kind = TextKind | EnumKind | BooleanKind | SeedKind | PresenceKind | FeatureKind

  /** A field of the form: an option of its own (sdkKey), the feature switch, or a flag with aliases. */
  datatype Field = Field(kind: Kind, flag: string, aliases: seq<string>, sdkKey: Option<string>)

  predicate FlagField(f: Field) {
    f.sdkKey.None? && !f.kind.FeatureKind?
  }

  function NamesOf(f: Field): seq<string> {
    [f.flag] + f.aliases
  }

  /** The first alias that is present, else the field's own flag. */
  function ReadAliases(o: Options, aliases: seq<string>, flag: string): FieldState {
    if aliases == [] then ReadFlag(o, flag)
    else if ReadFlag(o, aliases[0]).present then ReadFlag(o, aliases[0])
    else ReadAliases(o, aliases[1..], flag)
  }

  /** The aliases win over the flag and the earlier over the later, wherever they stand among the arguments. */
  lemma {:induction false} EarlierAliasWins(o: Options, aliases: seq<string>, flag: string, k: nat)
    requires k <= |aliases| && forall j :: 0 <= j < k ==> Bearers(UsableArgs(o), aliases[j]) == {}
    requires k < |aliases| ==> Bearers(UsableArgs(o), aliases[k]) != {}
    requires forall j :: 0 <= j < |aliases| ==> '=' !in aliases[j]
    ensures ReadAliases(o, aliases, flag) == ReadFlag(o, if k < |aliases| then aliases[k] else flag)
  {
    if aliases != [] {
      LastBearerIsRead(o, aliases[0]);
      if k > 0 {
        EarlierAliasWins(o, aliases[1..], flag, k - 1);
      }
    }
  }

  function ShownAs(v: Value): FlagValue {
    match v
    case Void => Undefined
    case Nothing => Null
    case Str(text) => Text(text)
    case Bool(b) => Text(if b then "true" else "false")
    case Shown(text) => Text(text)
  }

  function ReadSdk(o: Options, key: string): FieldState {
    var present := key in o.others;
    FieldState(key, if present then ShownAs(o.others[key]) else Undefined, present, if present then 1 else 0)
  }

  const ENABLE := "--enable-blink-features"
  const DISABLE := "--disable-blink-features"
  const FAKE := "FakeShadowRoot"

  function ReadFeature(args: seq<string>): FieldState {
    var disabled, enabled := HasShadow(Tokens(args, DISABLE)), HasShadow(Tokens(args, ENABLE));
    FieldState(FAKE, if disabled then Text("false") else if enabled then Text("true") else Undefined, disabled || enabled,
               (if disabled then 1 else 0) + if enabled then 1 else 0)
  }

  function ReadField(o: Options, f: Field): FieldState {
    if f.sdkKey.Some? then ReadSdk(o, f.sdkKey.value)
    else if f.kind.FeatureKind? then ReadFeature(UsableArgs(o))
    else ReadAliases(o, f.aliases, f.flag)
  }

  function SetSdk(o: Options, key: string, boolean: bool, v: FlagValue): Options {
    match v
    case Undefined => o.(others := o.others - {key})
    case Null => o.(others := o.others[key := Nothing])
    case Text(text) => o.(others := o.others[key := if boolean then Bool(text == "true") else Str(text)])
  }

  function SetField(o: Options, f: Field, v: FlagValue, name: Option<string>): Result<Options, Error> {
    if f.sdkKey.Some? then Ok(SetSdk(o, f.sdkKey.value, f.kind.BooleanKind?, v))
    else if f.kind.FeatureKind? then SetShadowRoot(o, v)
    else
      var target := if name.Some? then name.value else ReadField(o, f).name;
      if target !in NamesOf(f) then Err(UnknownParameter) else SetFlag(o, target, v)
  }

  /** The name a setting without a name goes to: it has no present alias before it. */
  lemma {:induction false} TargetIsFirst(o: Options, o': Options, aliases: seq<string>, flag: string)
    requires
      var target := ReadAliases(o, aliases, flag).name;
      ReadFlag(o', target).present && forall m: string :: m != target ==> ReadFlag(o', m) == ReadFlag(o, m)
    ensures ReadAliases(o', aliases, flag) == ReadFlag(o', ReadAliases(o, aliases, flag).name)
    ensures ReadAliases(o, aliases, flag).name in [flag] + aliases
  {
    if aliases != [] && !ReadFlag(o, aliases[0]).present {
      TargetIsFirst(o, o', aliases[1..], flag);
    }
  }

  lemma {:induction false} PresentSomewhere(o: Options, aliases: seq<string>, flag: string)
    ensures ReadAliases(o, aliases, flag).present <==> exists m :: m in [flag] + aliases && ReadFlag(o, m).present
    ensures ReadAliases(o, aliases, flag).name in [flag] + aliases
  {
    if aliases != [] && !ReadFlag(o, aliases[0]).present {
      PresentSomewhere(o, aliases[1..], flag);
    }
  }

  /**
   Setting a field without a name goes to the name it is read from, the alias that wins or the
   flag, and reads back from there. Unsetting makes it read as absent only if no other name of
   the field is present.
   */
  lemma FieldSetThenRead(o: Options, f: Field, v: FlagValue)
    requires FlagField(f) && ArgsOf(o).Ok? && forall m :: m in NamesOf(f) ==> '=' !in m
    ensures SetField(o, f, v, None).Ok?
    ensures
      var target, o' := ReadField(o, f).name, SetField(o, f, v, None).value;
      && (v != Undefined ==> ReadField(o', f) == Exactly(target, v))
      && (v == Undefined ==> (ReadField(o', f).present <==> exists m :: m in NamesOf(f) && m != target && ReadFlag(o, m).present))
      && (forall m: string :: m != target ==> ReadFlag(o', m) == ReadFlag(o, m))
  {
    var target := ReadField(o, f).name;
    PresentSomewhere(o, f.aliases, f.flag);
    var o' := SetField(o, f, v, None).value;
    SetThenRead(o, target, v);
    forall m: string | m != target
      ensures ReadFlag(o', m) == ReadFlag(o, m)
    {
      SetThenReadOther(o, target, v, m);
    }
    if v != Undefined {
      TargetIsFirst(o, o', f.aliases, f.flag);
    } else {
      PresentSomewhere(o', f.aliases, f.flag);
    }
  }

  /** A name that is not the field's is refused; one that is gets the value, whatever is read from. */
  lemma FieldSetByName(o: Options, f: Field, v: FlagValue, name: string)
    requires FlagField(f)
    ensures SetField(o, f, v, Some(name)) == Err(UnknownParameter) <==> name !in NamesOf(f)
    ensures name in NamesOf(f) && '=' !in name && ArgsOf(o).Ok? ==>
              SetField(o, f, v, Some(name)).Ok? && ReadFlag(SetField(o, f, v, Some(name)).value, name) == Exactly(name, v)
  {
    if name in NamesOf(f) && ArgsOf(o).Ok? {
      SetThenRead(o, name, v);
    }
  }

  /** An option of its own is present exactly if it is there at all, be its value undefined, and shows that value as text. */
  lemma SdkReads(o: Options, f: Field)
    requires f.sdkKey.Some?
    ensures
      var (key, r) := (f.sdkKey.value, ReadField(o, f));
      && r.name == key && (r.present <==> key in o.others) && r.count == (if key in o.others then 1 else 0)
      && (key in o.others ==>
            var v := o.others[key];
            && (r.value == Undefined <==> v == Void) && (r.value == Null <==> v == Nothing)
            && (v == Bool(true) ==> r.value == Text("true")) && (v == Bool(false) ==> r.value == Text("false"))
            && (v.Str? || v.Shown? ==> r.value == Text(v.text)))
      && (key !in o.others ==> r.value == Undefined)
  {}

  /** An option of its own reads back, except that a boolean only knows true, false, null and unset. */
  lemma SdkSetThenRead(o: Options, f: Field, v: FlagValue, name: Option<string>)
    requires f.sdkKey.Some?
    ensures SetField(o, f, v, name).Ok?
    ensures
      var o' := SetField(o, f, v, name).value;
      && (ReadField(o', f) == Exactly(f.sdkKey.value, v) <==> !f.kind.BooleanKind? || v in {Undefined, Null, Text("true"), Text("false")})
      && o'.args == o.args && o'.others - {f.sdkKey.value} == o.others - {f.sdkKey.value}
      && (f.kind.BooleanKind? && v.Text? ==> f.sdkKey.value in o'.others && o'.others[f.sdkKey.value] == Bool(v.text == "true"))
  {
    assert "true" != "false";
  }

  // ----- the FakeShadowRoot feature -----

  predicate Alphanumeric(c: char) {
    'a' <= c <= 'z' || 'A' <= c <= 'Z' || '0' <= c <= '9'
  }

  predicate IsSpace(c: char) {
    || c in {'\t', '\n', '\U{000B}', '\U{000C}', '\r', ' ', '\U{00A0}', '\U{1680}'} || '\U{2000}' <= c <= '\U{200A}'
    || c in {'\U{2028}', '\U{2029}', '\U{202F}', '\U{205F}', '\U{3000}', '\U{FEFF}'}
  }

  function Trim(s: string): string
    decreases |s|
  {
    if s == "" then ""
    else if IsSpace(s[0]) then Trim(s[1..])
    else if IsSpace(s[|s| - 1]) then Trim(s[..|s| - 1])
    else s
  }

  /** Trimming never removes a character that is not white space. */
  lemma {:induction false} TrimKeeps(s: string, i: nat)
    requires i < |s| && !IsSpace(s[i])
    ensures Trim(s) != ""
    decreases |s|
  {
    if IsSpace(s[0]) {
      TrimKeeps(s[1..], i - 1);
    } else if IsSpace(s[|s| - 1]) {
      TrimKeeps(s[..|s| - 1], i);
    }
  }

  lemma {:induction false} BlankIff(s: string)
    ensures Trim(s) == "" <==> forall i :: 0 <= i < |s| ==> IsSpace(s[i])
    decreases |s|
  {
    if s != "" && IsSpace(s[0]) {
      BlankIff(s[1..]);
      assert s == [s[0]] + s[1..];
    } else if s != "" {
      TrimKeeps(s, 0);
    }
  }

  predicate Blank(line: string) {
    forall i :: 0 <= i < |line| ==> IsSpace(line[i])
  }

  /** Trimming takes white space off both ends, and all of it. */
  lemma {:induction false} TrimRange(s: string) returns (i: nat, j: nat)
    ensures i <= j <= |s| && Trim(s) == s[i..j]
    ensures forall k :: 0 <= k < i || j <= k < |s| ==> IsSpace(s[k])
    ensures i < j ==> !IsSpace(s[i]) && !IsSpace(s[j - 1])
    decreases |s|
  {
    if s != "" && IsSpace(s[0]) {
      i, j := TrimRange(s[1..]);
      assert s[1..][i..j] == s[i + 1..j + 1];
      assert forall k :: 0 < k < |s| ==> s[k] == s[1..][k - 1];
      i, j := i + 1, j + 1;
    } else if s != "" && IsSpace(s[|s| - 1]) {
      i, j := TrimRange(s[..|s| - 1]);
    } else {
      i, j := 0, |s|;
      assert s[0..|s|] == s;
    }
  }

  /** Up to the first "<" or ":". */
  function Head(s: string): string {
    if s == "" || s[0] == '<' || s[0] == ':' then "" else [s[0]] + Head(s[1..])
  }

  predicate IsShadowRoot(token: string) {
    Head(Trim(token)) == FAKE
  }

  predicate HasShadow(tokens: seq<string>) {
    exists i :: 0 <= i < |tokens| && IsShadowRoot(tokens[i])
  }

  function TextOf(v: FlagValue): string {
    if v.Text? then v.text else ""
  }

  function TokensOf(args: seq<string>): seq<string> {
    if args == [] then [] else Split(TextOf(ArgValue(args[0])), ',') + TokensOf(args[1..])
  }

  /** The features a flag lists, over all its occurrences. */
  function Tokens(args: seq<string>, name: string): seq<string> {
    TokensOf(Named(args, name))
  }

  /** All features but FakeShadowRoot. */
  function Retained(tokens: seq<string>): seq<string> {
    if tokens == [] then []
    else if IsShadowRoot(tokens[0]) then Retained(tokens[1..])
    else [tokens[0]] + Retained(tokens[1..])
  }

  function NonEmpty(tokens: seq<string>): seq<string> {
    if tokens == [] then []
    else if tokens[0] == "" then NonEmpty(tokens[1..])
    else [tokens[0]] + NonEmpty(tokens[1..])
  }

  /** What the list becomes: joined again, or no flag if only empty tokens are left. */
  function FeatureValue(tokens: seq<string>): FlagValue {
    if NonEmpty(tokens) != [] then Text(Join(tokens, ',')) else Undefined
  }

  function SetFeature(o: Options, name: string, contain: bool): Result<Options, Error> {
    match ArgsOf(o)
    case Err(e) => Err(e)
    case Ok(args) =>
      var tokens := Tokens(args, name);
      if !HasShadow(tokens) && !contain then Ok(o)
      else SetFlag(o, name, FeatureValue(NewTokens(tokens, contain)))
  }

  function SetShadowRoot(o: Options, v: FlagValue): Result<Options, Error> {
    match SetFeature(o, ENABLE, v == Text("true"))
    case Err(e) => Err(e)
    case Ok(next) => SetFeature(next, DISABLE, v == Text("false"))
  }

  lemma {:induction false} HeadCuts(s: string)
    ensures Head(s) <= s && '<' !in Head(s) && ':' !in Head(s)
    ensures |Head(s)| < |s| ==> s[|Head(s)|] in {'<', ':'}
  {
    if s != "" {
      HeadCuts(s[1..]);
    }
  }

  /** What follows a name in a token: only white space, or its "<" or ":" part. */
  predicate Ends(rest: string) {
    Blank(rest) || rest[0] in {'<', ':'}
  }

  /** Some white space, the name at position i, and an end. */
  predicate NameAt(token: string, name: string, i: nat) {
    && i + |name| <= |token| && token[i..i + |name|] == name
    && Blank(token[..i]) && Ends(token[i + |name|..])
  }

  predicate Word(name: string) {
    name != "" && forall i :: 0 <= i < |name| ==> !IsSpace(name[i]) && name[i] !in {'<', ':'}
  }

  /** The name of a trimmed token is `name` exactly if the token is that name between white space, up to "<" or ":". */
  lemma NameOfToken(token: string, name: string)
    requires Word(name)
    ensures Head(Trim(token)) == name <==> exists i :: 0 <= i <= |token| && NameAt(token, name, i)
  {
    var i, j := TrimRange(token);
    var t := Trim(token);
    if Head(t) == name {
      HeadIsAt(token, name, i, j);
    }
    if k :| 0 <= k <= |token| && NameAt(token, name, k) {
      NameStarts(token, name, i, j, k);
      HeadOfName(t, name);
    }
  }

  lemma HeadIsAt(token: string, name: string, i: nat, j: nat)
    requires i <= j <= |token| && Head(token[i..j]) == name
    requires forall m :: 0 <= m < i || j <= m < |token| ==> IsSpace(token[m])
    ensures NameAt(token, name, i)
  {
    var t, n := token[i..j], |name|;
    HeadCuts(t);
    assert token[i..i + n] == t[..n] == name;
    var rest := token[i + n..];
    assert i + n < j ==> rest[0] == t[n];
    assert forall m :: 0 <= m < |rest| ==> rest[m] == token[i + n + m];
  }

  lemma NameStarts(token: string, name: string, i: nat, j: nat, k: nat)
    requires Word(name) && NameAt(token, name, k) && i <= j <= |token|
    requires forall m :: 0 <= m < i || j <= m < |token| ==> IsSpace(token[m])
    requires i < j ==> !IsSpace(token[i]) && !IsSpace(token[j - 1])
    ensures i == k && i + |name| <= j && token[i..j][..|name|] == name
    ensures i + |name| < j ==> token[i..j][|name|] in {'<', ':'}
  {
    var n, rest := |name|, token[k + |name|..];
    forall m | 0 <= m < n
      ensures token[k + m] == name[m] && !IsSpace(token[k + m])
    {
      assert token[k..k + n][m] == name[m];
    }
    assert forall m :: 0 <= m < k ==> token[m] == token[..k][m];
    assert !IsSpace(token[k + 0]) && !IsSpace(token[k + (n - 1)]);
    assert i == k;
    assert token[i..j][..n] == token[k..k + n];
    assert k + n < j ==> rest[0] == token[k + n] && rest[j - 1 - k - n] == token[j - 1];
  }

  lemma HeadOfName(t: string, name: string)
    requires Word(name) && |t| >= |name| && t[..|name|] == name && (|t| > |name| ==> t[|name|] in {'<', ':'})
    ensures Head(t) == name
  {
    HeadCuts(t);
    var n, h := |name|, Head(t);
    assert forall m :: 0 <= m < n ==> t[..n][m] == t[m] == name[m];
    assert forall m :: 0 <= m < |h| ==> h[m] == t[m] && h[m] in h;
    assert |h| == n;
    assert t[..|h|] == h;
  }

  /** The tokens that count as the feature. */
  lemma FeatureTokenIff(token: string)
    ensures IsShadowRoot(token) <==> exists i :: 0 <= i <= |token| && NameAt(token, "FakeShadowRoot", i)
  {
    assert forall i :: 0 <= i < |FAKE| ==> Alphanumeric(FAKE[i]);
    NameOfToken(token, FAKE);
  }

  /** An argument called `name` lists the feature. */
  ghost predicate ListsFeature(args: seq<string>, name: string) {
    exists k, token :: 0 <= k < |args| && ArgName(args[k]) == name && InList(args[k], token) && IsShadowRoot(token)
  }

  predicate InList(arg: string, token: string) {
    token in Split(TextOf(ArgValue(arg)), ',')
  }

  lemma {:induction false} ListedIffShadow(args: seq<string>, name: string)
    ensures ListsFeature(args, name) <==> HasShadow(Tokens(args, name))
  {
    if args != [] {
      var rest, here := args[1..], Split(TextOf(ArgValue(args[0])), ',');
      ListedIffShadow(rest, name);
      assert ListsFeature(rest, name) ==> ListsFeature(args, name) by {
        if k, token :| 0 <= k < |rest| && ArgName(rest[k]) == name && InList(rest[k], token) && IsShadowRoot(token) {
          assert args[k + 1] == rest[k];
        }
      }
      assert ListsFeature(args, name) ==> ListsFeature(rest, name) || (ArgName(args[0]) == name && HasShadow(here)) by {
        if k, token :| 0 <= k < |args| && ArgName(args[k]) == name && InList(args[k], token) && IsShadowRoot(token) {
          assert k > 0 ==> args[k] == rest[k - 1];
        }
      }
      assert ArgName(args[0]) == name && HasShadow(here) ==> ListsFeature(args, name) by {
        if i :| 0 <= i < |here| && IsShadowRoot(here[i]) {
          assert InList(args[0], here[i]);
        }
      }
      if ArgName(args[0]) == name {
        TokensFirst(args, name);
        ShadowConcat(here, Tokens(rest, name));
      }
    }
  }

  lemma TokensFirst(args: seq<string>, name: string)
    requires args != [] && ArgName(args[0]) == name
    ensures Tokens(args, name) == Split(TextOf(ArgValue(args[0])), ',') + Tokens(args[1..], name)
  {
    assert Named(args, name)[1..] == Named(args[1..], name);
  }

  lemma ShadowConcat(a: seq<string>, b: seq<string>)
    ensures HasShadow(a + b) <==> HasShadow(a) || HasShadow(b)
  {
    forall i | 0 <= i < |b| && IsShadowRoot(b[i])
      ensures HasShadow(a + b)
    {
      assert (a + b)[|a| + i] == b[i];
    }
    forall i | 0 <= i < |a| && IsShadowRoot(a[i])
      ensures HasShadow(a + b)
    {
      assert (a + b)[i] == a[i];
    }
  }

  /** The switch reads "false" if a disable list has the feature, whatever else, and "true" if only an enable list has. */
  lemma DisableListWins(o: Options, f: Field)
    requires f.kind.FeatureKind? && f.sdkKey.None?
    ensures
      var off := ListsFeature(UsableArgs(o), "--disable-blink-features");
      var on := ListsFeature(UsableArgs(o), "--enable-blink-features");
      ReadField(o, f) == if off then FieldState("FakeShadowRoot", Text("false"), true, if on then 2 else 1)
                         else Exactly("FakeShadowRoot", if on then Text("true") else Undefined)
  {
    ListedIffShadow(UsableArgs(o), DISABLE);
    ListedIffShadow(UsableArgs(o), ENABLE);
  }

  lemma {:induction false} WholeHead(s: string)
    requires '<' !in s && ':' !in s
    ensures Head(s) == s
  {
    if s != "" {
      WholeHead(s[1..]);
      assert s == [s[0]] + s[1..];
    }
  }

  lemma NothingToTrim(s: string)
    requires s != "" && !IsSpace(s[0]) && !IsSpace(s[|s| - 1])
    ensures Trim(s) == s
  {}

  lemma LettersOnly(s: string)
    requires s != "" && forall i :: 0 <= i < |s| ==> Alphanumeric(s[i])
    ensures Trim(s) == s && Head(s) == s && ',' !in s
  {
    NothingToTrim(s);
    WholeHead(s);
  }

  lemma FakeIsShadowRoot()
    ensures IsShadowRoot(FAKE) && FAKE != "" && ',' !in FAKE
  {
    assert forall i :: 0 <= i < |FAKE| ==> Alphanumeric(FAKE[i]);
    LettersOnly(FAKE);
  }

  lemma {:induction false} RetainedConcat(a: seq<string>, b: seq<string>)
    ensures Retained(a + b) == Retained(a) + Retained(b)
  {
    if a == [] {
      assert a + b == b;
    } else {
      RetainedConcat(a[1..], b);
      assert (a + b)[1..] == a[1..] + b && (a + b)[0] == a[0];
    }
  }

  lemma {:induction false} NonEmptyConcat(a: seq<string>, b: seq<string>)
    ensures NonEmpty(a + b) == NonEmpty(a) + NonEmpty(b)
  {
    if a == [] {
      assert a + b == b;
    } else {
      NonEmptyConcat(a[1..], b);
      assert (a + b)[1..] == a[1..] + b && (a + b)[0] == a[0];
    }
  }

  lemma {:induction false} RetainedHasNoShadow(tokens: seq<string>)
    ensures !HasShadow(Retained(tokens)) && Retained(Retained(tokens)) == Retained(tokens)
    ensures forall t :: t in Retained(tokens) ==> t in tokens
    ensures !HasShadow(tokens) ==> Retained(tokens) == tokens
  {
    if tokens != [] {
      RetainedHasNoShadow(tokens[1..]);
      var rest := Retained(tokens[1..]);
      if IsShadowRoot(tokens[0]) {
        assert HasShadow(tokens);
      } else {
        assert ([tokens[0]] + rest)[1..] == rest;
        assert HasShadow(tokens[1..]) ==> HasShadow(tokens) by {
          if HasShadow(tokens[1..]) {
            var i :| 0 <= i < |tokens[1..]| && IsShadowRoot(tokens[1..][i]);
            assert IsShadowRoot(tokens[i + 1]);
          }
        }
      }
    }
  }

  lemma {:induction false} TokensAreWhole(args: seq<string>)
    ensures forall t :: t in TokensOf(args) ==> ',' !in t
  {
    if args != [] {
      PartsAreWhole(TextOf(ArgValue(args[0])), ',');
      TokensAreWhole(args[1..]);
    }
  }

  /** Setting a token list and reading it gives the list, or nothing if it had only empty tokens. */
  lemma TokensAfterSet(o: Options, name: string, tokens: seq<string>)
    requires '=' !in name && ArgsOf(o).Ok? && forall t :: t in tokens ==> ',' !in t
    ensures SetFlag(o, name, FeatureValue(tokens)).Ok?
    ensures Tokens(UsableArgs(SetFlag(o, name, FeatureValue(tokens)).value), name) == if NonEmpty(tokens) != [] then tokens else []
  {
    var v := FeatureValue(tokens);
    SetFlagArgs(o, name, v);
    if v != Undefined {
      TokensOfJoin(name, tokens);
    }
    SetKeepsOthers(UsableArgs(o), name, Argument(name, v));
  }

  lemma TokensOfJoin(name: string, tokens: seq<string>)
    requires '=' !in name && NonEmpty(tokens) != [] && forall t :: t in tokens ==> ',' !in t
    ensures ArgName(name + "=" + Join(tokens, ',')) == name && TokensOf([name + "=" + Join(tokens, ',')]) == tokens
  {
    var arg := name + "=" + Join(tokens, ',');
    ArgumentReads(name, Text(Join(tokens, ',')));
    SplitOfJoin(tokens, ',');
    assert TokensOf([arg]) == Split(TextOf(ArgValue(arg)), ',') + TokensOf([arg][1..]);
  }

  /**
   One of the two lists after SetFeature: it has the feature exactly when asked to, every other
   feature is there in order, and empty tokens are lost only with a list that is empty otherwise.
   */
  lemma FeatureLaw(o: Options, name: string, contain: bool)
    requires '=' !in name && ArgsOf(o).Ok?
    ensures SetFeature(o, name, contain).Ok? && ArgsOf(SetFeature(o, name, contain).value).Ok?
    ensures
      var tokens, after := Tokens(UsableArgs(o), name), Tokens(UsableArgs(SetFeature(o, name, contain).value), name);
      && (HasShadow(after) <==> contain)
      && NonEmpty(Retained(after)) == NonEmpty(Retained(tokens))
      && (Retained(after) == Retained(tokens) <==>
            Retained(tokens) == [] || NonEmpty(Retained(tokens)) != [] || contain || !HasShadow(tokens))
  {
    var tokens := Tokens(UsableArgs(o), name);
    RetainedHasNoShadow(tokens);
    if HasShadow(tokens) || contain {
      TokensAreWhole(Named(UsableArgs(o), name));
      FakeIsShadowRoot();
      TokensAfterSet(o, name, NewTokens(tokens, contain));
      NewTokensLaw(tokens, contain);
    }
  }

  /** The list SetFeature writes. */
  function NewTokens(tokens: seq<string>, contain: bool): seq<string> {
    Retained(tokens) + if contain then [FAKE] else []
  }

  lemma NewTokensLaw(tokens: seq<string>, contain: bool)
    ensures HasShadow(NewTokens(tokens, contain)) <==> contain
    ensures Retained(NewTokens(tokens, contain)) == Retained(tokens)
    ensures NonEmpty(NewTokens(tokens, contain)) == NonEmpty(Retained(tokens)) + if contain then [FAKE] else []
  {
    var kept, wanted := Retained(tokens), NewTokens(tokens, contain);
    FakeIsShadowRoot();
    RetainedHasNoShadow(tokens);
    if contain {
      RetainedConcat(kept, [FAKE]);
      NonEmptyConcat(kept, [FAKE]);
      assert Retained([FAKE]) == [] && NonEmpty([FAKE]) == [FAKE] && kept + [] == kept;
      assert wanted[|kept|] == FAKE;
    } else {
      assert wanted == kept && NonEmpty(kept) + [] == NonEmpty(kept);
    }
  }

  /** SetFeature keeps every other flag: its reading, its features, and its place among the others. */
  lemma FeatureKeepsOthers(o: Options, name: string, contain: bool, m: string)
    requires '=' !in name && ArgsOf(o).Ok? && m != name
    ensures SetFeature(o, name, contain).Ok?
    ensures Named(UsableArgs(SetFeature(o, name, contain).value), m) == Named(UsableArgs(o), m)
    ensures Others(UsableArgs(SetFeature(o, name, contain).value), name) == Others(UsableArgs(o), name)
    ensures SetFeature(o, name, contain).value.others == o.others
  {
    var tokens := Tokens(UsableArgs(o), name);
    if HasShadow(tokens) || contain {
      var v := FeatureValue(NewTokens(tokens, contain));
      SetFlagArgs(o, name, v);
      if v != Undefined {
        ArgumentReads(name, v);
      }
      SetKeepsOthers(UsableArgs(o), name, Argument(name, v));
      SetKeepsOtherNames(UsableArgs(o), name, Argument(name, v), m);
    }
  }

  lemma FeatureFlags()
    ensures ENABLE != DISABLE && '=' !in ENABLE && '=' !in DISABLE
  {
    assert ENABLE[2] == 'e' && DISABLE[2] == 'd';
  }

  lemma {:induction false} OthersCommute(args: seq<string>, a: string, b: string)
    ensures Others(Others(args, a), b) == Others(Others(args, b), a)
  {
    if args != [] {
      OthersCommute(args[1..], a, b);
    }
  }

  /** Setting the switch reads back exactly for true, false and unset; anything else reads as unset. */
  lemma ShadowRootReadsBack(o: Options, v: FlagValue)
    requires ArgsOf(o).Ok?
    ensures SetShadowRoot(o, v).Ok?
    ensures
      var o' := SetShadowRoot(o, v).value;
      ReadFeature(UsableArgs(o')) == Exactly(FAKE, if v in {Text("true"), Text("false")} then v else Undefined)
  {
    FeatureFlags();
    assert "true" != "false";
    FeatureLaw(o, ENABLE, v == Text("true"));
    var next := SetFeature(o, ENABLE, v == Text("true")).value;
    FeatureLaw(next, DISABLE, v == Text("false"));
    FeatureKeepsOthers(next, DISABLE, v == Text("false"), ENABLE);
  }

  /** Setting the switch keeps every other feature of both lists, and every other argument, in order. */
  lemma ShadowRootKeepsTheRest(o: Options, v: FlagValue)
    requires ArgsOf(o).Ok?
    ensures SetShadowRoot(o, v).Ok?
    ensures
      var args, after := UsableArgs(o), UsableArgs(SetShadowRoot(o, v).value);
      && NonEmpty(Retained(Tokens(after, ENABLE))) == NonEmpty(Retained(Tokens(args, ENABLE)))
      && NonEmpty(Retained(Tokens(after, DISABLE))) == NonEmpty(Retained(Tokens(args, DISABLE)))
      && Others(Others(after, ENABLE), DISABLE) == Others(Others(args, ENABLE), DISABLE)
    ensures SetShadowRoot(o, v).value.others == o.others
  {
    FeatureFlags();
    FeatureLaw(o, ENABLE, v == Text("true"));
    var next := SetFeature(o, ENABLE, v == Text("true")).value;
    FeatureKeepsOthers(o, ENABLE, v == Text("true"), DISABLE);
    FeatureLaw(next, DISABLE, v == Text("false"));
    FeatureKeepsOthers(next, DISABLE, v == Text("false"), ENABLE);
    var after := UsableArgs(SetShadowRoot(o, v).value);
    OthersCommute(after, ENABLE, DISABLE);
    OthersCommute(UsableArgs(next), ENABLE, DISABLE);
  }

  // ----- raw text -----

  /** What "." does not match. */
  predicate LineEnd(c: char) {
    c in {'\n', '\r', '\U{2028}', '\U{2029}'}
  }

  /** --name or --name=value, without NUL or line ends. */
  predicate WellFormed(line: string) {
    var name := ArgName(line);
    && '\0' !in line
    && |name| >= 3 && name[..2] == "--" && Alphanumeric(name[2])
    && (forall i :: 3 <= i < |name| ==> Alphanumeric(name[i]) || name[i] == '-')
    && (forall i :: |name| < i < |line| ==> !LineEnd(line[i]))
  }

  /** The pattern: two dashes, a letter or digit, letters, digits and dashes up to n, and from there nothing, or "=" and the rest of the line. */
  predicate Fits(line: string, n: int) {
    && 3 <= n <= |line| && line[0] == '-' && line[1] == '-' && Alphanumeric(line[2])
    && (forall i :: 3 <= i < n ==> Alphanumeric(line[i]) || line[i] == '-')
    && (n < |line| ==> line[n] == '=' && forall i :: n < i < |line| ==> line[i] !in {'\n', '\r', '\U{2028}', '\U{2029}'})
  }

  lemma WellFormedIff(line: string)
    ensures WellFormed(line) <==> '\0' !in line && exists n :: Fits(line, n)
  {
    var name := ArgName(line);
    var m := |name|;
    assert forall i :: 0 <= i < m ==> name[i] == line[i];
    if WellFormed(line) {
      assert name[..2] == "--";
      assert name[0] == name[..2][0] && name[1] == name[..2][1];
      assert Fits(line, m);
    }
    if '\0' !in line && exists n :: Fits(line, n) {
      var n :| Fits(line, n);
      assert forall i :: 0 <= i < n ==> line[..n][i] == line[i];
      FirstIndex(line, '=', n);
      assert name[..2] == "--";
    }
  }

  function StripReturn(part: string): string {
    if part != "" && part[|part| - 1] == '\r' then part[..|part| - 1] else part
  }

  /** Every part but the last loses one carriage return before its line feed. */
  function StripReturns(parts: seq<string>): seq<string> {
    if |parts| <= 1 then parts else [StripReturn(parts[0])] + StripReturns(parts[1..])
  }

  function LinesOf(text: string): seq<string> {
    StripReturns(Split(text, '\n'))
  }

  function NotBlank(lines: seq<string>): seq<string> {
    if lines == [] then []
    else if Trim(lines[0]) == "" then NotBlank(lines[1..])
    else [lines[0]] + NotBlank(lines[1..])
  }

  /** The first line that is not a well-formed argument, or the number of lines. */
  function FirstBad(lines: seq<string>): (i: nat)
    ensures i <= |lines| && (i < |lines| ==> !WellFormed(lines[i]))
    ensures forall k :: 0 <= k < i ==> WellFormed(lines[k])
  {
    if lines == [] || !WellFormed(lines[0]) then 0 else 1 + FirstBad(lines[1..])
  }

  function ParseRaw(text: string): (r: Result<seq<string>, Error>)
    ensures r.Ok? ==> forall i :: 0 <= i < |r.value| ==> WellFormed(r.value[i])
  {
    var lines := NotBlank(LinesOf(text));
    if FirstBad(lines) < |lines| then Err(BadLine(FirstBad(lines))) else Ok(lines)
  }

  /** A well-formed argument is one line, and not a blank one. */
  lemma WellFormedIsALine(line: string)
    requires WellFormed(line)
    ensures '\n' !in line && StripReturn(line) == line && Trim(line) != ""
  {
    var name := ArgName(line);
    forall i | 0 <= i < |line|
      ensures line[i] != '\n' && line[i] != '\r'
    {
      assert i < |name| ==> line[i] == name[i];
      assert i < 2 ==> line[i] == name[..2][i];
    }
    assert line[0] == name[..2][0] == '-';
    TrimKeeps(line, 0);
  }

  lemma {:induction false} StripsNothing(parts: seq<string>)
    requires forall i :: 0 <= i < |parts| ==> StripReturn(parts[i]) == parts[i]
    ensures StripReturns(parts) == parts
  {
    if |parts| > 1 {
      StripsNothing(parts[1..]);
    }
  }

  lemma {:induction false} NoneBlank(lines: seq<string>)
    requires forall i :: 0 <= i < |lines| ==> Trim(lines[i]) != ""
    ensures NotBlank(lines) == lines
  {
    if lines != [] {
      NoneBlank(lines[1..]);
    }
  }

  /** How many of the first n lines are not blank. */
  function Kept(lines: seq<string>, n: nat): nat
    requires n <= |lines|
  {
    if n == 0 then 0 else Kept(lines, n - 1) + if Blank(lines[n - 1]) then 0 else 1
  }

  lemma {:induction false} NotBlankSnoc(lines: seq<string>, line: string)
    ensures NotBlank(lines + [line]) == NotBlank(lines) + if Blank(line) then [] else [line]
  {
    BlankIff(line);
    if lines == [] {
      assert [] + [line] == [line];
    } else {
      NotBlankSnoc(lines[1..], line);
      assert (lines + [line])[1..] == lines[1..] + [line];
    }
  }

  lemma {:induction false} CountsKept(lines: seq<string>, n: nat)
    requires n <= |lines|
    ensures |NotBlank(lines[..n])| == Kept(lines, n)
  {
    if n > 0 {
      CountsKept(lines, n - 1);
      assert lines[..n] == lines[..n - 1] + [lines[n - 1]];
      NotBlankSnoc(lines[..n - 1], lines[n - 1]);
    }
  }

  lemma {:induction false} KeptAt(lines: seq<string>, n: nat, i: nat)
    requires i < n <= |lines| && !Blank(lines[i])
    ensures Kept(lines, i) < Kept(lines, n) == |NotBlank(lines[..n])| && NotBlank(lines[..n])[Kept(lines, i)] == lines[i]
  {
    CountsKept(lines, n);
    CountsKept(lines, n - 1);
    assert lines[..n] == lines[..n - 1] + [lines[n - 1]];
    NotBlankSnoc(lines[..n - 1], lines[n - 1]);
    if i < n - 1 {
      KeptAt(lines, n - 1, i);
    }
  }

  /** Every line that is not blank is kept, in its place among those. */
  lemma KeptInOrder(lines: seq<string>)
    ensures |NotBlank(lines)| == Kept(lines, |lines|)
    ensures forall i :: 0 <= i < |lines| && !Blank(lines[i]) ==>
              Kept(lines, i) < |NotBlank(lines)| && NotBlank(lines)[Kept(lines, i)] == lines[i]
  {
    assert lines[..|lines|] == lines;
    CountsKept(lines, |lines|);
    forall i | 0 <= i < |lines| && !Blank(lines[i])
      ensures Kept(lines, i) < |NotBlank(lines)| && NotBlank(lines)[Kept(lines, i)] == lines[i]
    {
      KeptAt(lines, |lines|, i);
    }
  }

  /** And nothing else is. */
  lemma {:induction false} KeptFrom(lines: seq<string>, n: nat, k: nat) returns (i: nat)
    requires n <= |lines| && k < Kept(lines, n)
    ensures i < n && !Blank(lines[i]) && Kept(lines, i) == k
  {
    if k == Kept(lines, n - 1) {
      i := n - 1;
    } else {
      i := KeptFrom(lines, n - 1, k);
    }
  }

  lemma {:induction false} StripsEachButTheLast(parts: seq<string>)
    ensures |StripReturns(parts)| == |parts|
    ensures forall k :: 0 <= k < |parts| ==>
              StripReturns(parts)[k] == if k < |parts| - 1 then StripReturn(parts[k]) else parts[k]
  {
    if |parts| > 1 {
      StripsEachButTheLast(parts[1..]);
    }
  }

  predicate EndsInReturn(line: string) {
    line != "" && line[|line| - 1] == '\r'
  }

  /** The lines of a text: joined by line feeds they are the text, but for one return before a feed. */
  lemma LinesAreTheText(text: string)
    ensures
      var parts, lines := Split(text, '\n'), LinesOf(text);
      && Join(parts, '\n') == text && (forall k :: 0 <= k < |parts| ==> '\n' !in parts[k])
      && |lines| == |parts| && lines[|lines| - 1] == parts[|parts| - 1]
      && forall k :: 0 <= k < |lines| - 1 ==> parts[k] == lines[k] + "\r" || (parts[k] == lines[k] && !EndsInReturn(lines[k]))
  {
    JoinOfSplit(text, '\n');
    PartsAreWhole(text, '\n');
    StripsEachButTheLast(Split(text, '\n'));
  }

  /**
   Raw text is read line by line: all lines that are not blank, in order, if each of them is a
   well-formed argument; else the error names the first that is not, counting from zero.
   */
  lemma RawTextIsItsLines(text: string)
    ensures
      var lines, r := LinesOf(text), ParseRaw(text);
      && (r.Ok? <==> forall i :: 0 <= i < |lines| && !Blank(lines[i]) ==> WellFormed(lines[i]))
      && (r.Ok? ==> |r.value| == Kept(lines, |lines|)
                    && forall i :: 0 <= i < |lines| && !Blank(lines[i]) ==> Kept(lines, i) < |r.value| && r.value[Kept(lines, i)] == lines[i])
      && (forall i :: 0 <= i < |lines| && FirstMalformed(lines, i) ==> r == Err(BadLine(Kept(lines, i))))
  {
    var lines := LinesOf(text);
    KeptInOrder(lines);
    AllWellFormed(lines);
    forall i | 0 <= i < |lines| && FirstMalformed(lines, i)
      ensures FirstBad(NotBlank(lines)) == Kept(lines, i) < |NotBlank(lines)|
    {
      FirstBadAt(lines, i);
    }
  }

  lemma AllWellFormed(lines: seq<string>)
    ensures FirstBad(NotBlank(lines)) == |NotBlank(lines)| <==> forall i :: 0 <= i < |lines| && !Blank(lines[i]) ==> WellFormed(lines[i])
  {
    var kept := NotBlank(lines);
    KeptInOrder(lines);
    if forall i :: 0 <= i < |lines| && !Blank(lines[i]) ==> WellFormed(lines[i]) {
      forall k | 0 <= k < |kept|
        ensures WellFormed(kept[k])
      {
        var i := KeptFrom(lines, |lines|, k);
      }
    }
    forall i | FirstBad(kept) == |kept| && 0 <= i < |lines| && !Blank(lines[i])
      ensures WellFormed(lines[i])
    {
      assert kept[Kept(lines, i)] == lines[i];
    }
  }

  lemma FirstBadAt(lines: seq<string>, i: nat)
    requires i < |lines| && FirstMalformed(lines, i)
    ensures FirstBad(NotBlank(lines)) == Kept(lines, i) < |NotBlank(lines)|
  {
    var kept := NotBlank(lines);
    KeptInOrder(lines);
    assert kept[Kept(lines, i)] == lines[i];
    forall k | 0 <= k < Kept(lines, i)
      ensures WellFormed(kept[k])
    {
      var j := KeptFrom(lines, i, k);
      assert kept[Kept(lines, j)] == lines[j];
    }
  }

  predicate FirstMalformed(lines: seq<string>, i: nat)
    requires i < |lines|
  {
    !Blank(lines[i]) && !WellFormed(lines[i]) && forall j :: 0 <= j < i && !Blank(lines[j]) ==> WellFormed(lines[j])
  }

  /** Parsing inverts joining with line feeds exactly for lists of well-formed arguments. */
  lemma ParseOfJoin(args: seq<string>)
    ensures ParseRaw(Join(args, '\n')) == Ok(args) <==> forall i :: 0 <= i < |args| ==> WellFormed(args[i])
  {
    if forall i :: 0 <= i < |args| ==> WellFormed(args[i]) {
      forall i | 0 <= i < |args|
        ensures '\n' !in args[i] && StripReturn(args[i]) == args[i] && Trim(args[i]) != ""
      {
        WellFormedIsALine(args[i]);
      }
      if args == [] {
        assert LinesOf("") == [""] && NotBlank([""]) == NotBlank([""][1..]);
      } else {
        SplitOfJoin(args, '\n');
        StripsNothing(args);
        NoneBlank(args);
      }
    }
  }

  // ----- the loops of the source -----

  /** What the loop has still to add, once the name has been found or before. */
  function Rest(args: seq<string>, name: string, replacement: Option<string>, found: bool): seq<string> {
    if found then Others(args, name) else SetArgs(args, name, replacement)
  }

  lemma RestStep(args: seq<string>, name: string, replacement: Option<string>, found: bool, next: seq<string>)
    requires args != []
    ensures next + Rest(args, name, replacement, found) ==
              if ArgName(args[0]) != name then next + [args[0]] + Rest(args[1..], name, replacement, found)
              else next + (if found then [] else ToSeq(replacement)) + Rest(args[1..], name, replacement, true)
  {
    Associate(next, [args[0]], Rest(args[1..], name, replacement, found));
    Associate(next, if found then [] else ToSeq(replacement), Others(args[1..], name));
    assert [] + Others(args[1..], name) == Others(args[1..], name);
  }

  /** The loop of setChromixFlag. */
  method ReplaceArgs(args: seq<string>, name: string, replacement: Option<string>) returns (next: seq<string>)
    ensures next == SetArgs(args, name, replacement)
  {
    next := [];
    var found := false;
    var i := 0;
    assert args[0..] == args;
    while i < |args|
      invariant 0 <= i <= |args|
      invariant SetArgs(args, name, replacement) == next + Rest(args[i..], name, replacement, found)
    {
      RestStep(args[i..], name, replacement, found, next);
      assert args[i..][1..] == args[i + 1..];
      if ArgName(args[i]) != name {
        next := next + [args[i]];
      } else {
        if !found && replacement.Some? {
          next := next + [replacement.value];
        }
        assert next + [] == next;
        found := true;
      }
      i := i + 1;
    }
    assert args[i..] == [] && next + [] == next;
    if !found && replacement.Some? {
      next := next + [replacement.value];
    }
  }

  /** The two rounds of setChromixShadowRoot. */
  method SwitchShadowRoot(o: Options, v: FlagValue) returns (r: Result<Options, Error>)
    ensures r == SetShadowRoot(o, v)
  {
    var lists := [(ENABLE, "true"), (DISABLE, "false")];
    var next := o;
    var i := 0;
    while i < 2
      invariant 0 <= i <= 2
      invariant i == 0 ==> next == o
      invariant i == 1 ==> SetFeature(o, ENABLE, v == Text("true")) == Ok(next)
      invariant i == 2 ==> SetShadowRoot(o, v) == Ok(next)
    {
      var (name, enabled) := lists[i];
      var args := ArgsOf(next);
      if args.Err? {
        return Err(args.error);
      }
      var tokens := Tokens(args.value, name);
      var contain := v == Text(enabled);
      if HasShadow(tokens) || contain {
        var retained := Retained(tokens);
        if contain {
          retained := retained + [FAKE];
        }
        assert contain || retained == retained + [];
        next := SetFlag(next, name, FeatureValue(retained)).value;
      }
      i := i + 1;
    }
    return Ok(next);
  }

  /** The alias loop of readChromixField. */
  method ReadFirstAlias(o: Options, f: Field) returns (r: FieldState)
    requires FlagField(f)
    ensures r == ReadField(o, f)
  {
    var i := 0;
    assert f.aliases[0..] == f.aliases;
    while i < |f.aliases|
      invariant 0 <= i <= |f.aliases|
      invariant ReadField(o, f) == ReadAliases(o, f.aliases[i..], f.flag)
    {
      var state := ReadFlag(o, f.aliases[i]);
      if state.present {
        return state;
      }
      assert f.aliases[i..][1..] == f.aliases[i + 1..];
      i := i + 1;
    }
    return ReadFlag(o, f.flag);
  }
}
