/**
 * The checks of the procedural macros (proc-macros/src/lib.rs): collecting an
 * iterator into exactly N items, the `Trait for Struct` attribute arguments,
 * and the rules `#[fn_trait]` applies to the annotated functions of a trait.
 * Token generation is not modelled; a trait is reduced to its items' names,
 * attributes, arguments and whether they have a body.
 */
module ProcMacros {
  import opened Wrappers
  import opened Texts

  /** ArrayBoundsError. */
  datatype ArrayBoundsError = MoreThan(expected: nat) | Only(found: nat, expected: nat)

  function Min(a: nat, b: nat): nat { if a < b then a else b }

  /**
   * ArrayCollector::from_iter over the items `source` yields: the first n
   * items go into the array in order; running out first is Only, and one item
   * to spare is MoreThan. `taken` is how many items were pulled.
   */
  method CollectArray<T>(source: seq<T>, n: nat) returns (r: Result<seq<T>, ArrayBoundsError>, taken: nat)
    ensures taken == Min(|source|, n + 1)
    ensures r.Ok? <==> |source| == n
    ensures r.Ok? ==> r.value == source
    ensures |source| < n ==> r == Err(Only(|source|, n))
    ensures |source| > n ==> r == Err(MoreThan(n))
  {
    var result := new Option<T>[n](_ => None);
    var cursor := 0;
    for i := 0 to n
      invariant cursor == i <= |source|
      invariant forall k :: 0 <= k < i ==> result[k] == Some(source[k])
    {
      if cursor == |source| {
        // The iterator is exhausted after i items; those are dropped.
        return Err(Only(i, n)), cursor;
      }
      result[i] := Some(source[cursor]);
      cursor := cursor + 1;
    }
    if cursor < |source| {
      // One item past the n-th: all n are dropped.
      return Err(MoreThan(n)), cursor + 1;
    }
    var items: seq<T> := [];
    for k := 0 to n
      invariant |items| == k
      invariant forall j :: 0 <= j < k ==> items[j] == source[j]
    {
      items := items + [result[k].value];
    }
    return Ok(items), cursor;
  }

  /** ArrayBoundsError's Display text: "Expected ", the expected count, then the rest. */
  function Message(e: ArrayBoundsError): (r: string)
    ensures |r| > 11 && r[..9] == "Expected " && IsDigit(r[9])
    ensures r[|r| - 1] == '.' && (if e.Only? then IsDigit(r[|r| - 2]) else r[|r| - 2] == 'e')
    ensures e.MoreThan? ==> r[|r| - 6..] == " more."
  {
    var head, count, rest := "Expected ", Dec(e.expected), MessageRest(e);
    assert (head + count + rest)[..9] == head && (head + count + rest)[9] == count[0];
    assert (head + count + rest)[|head + count + rest| - 2] == rest[|rest| - 2];
    head + count + rest
  }

  /**
   * What follows the expected count in a Display text: it starts with a
   * space, its ninth character tells the two kinds apart, and it ends with
   * the found count or "more", then '.'.
   */
  function MessageRest(e: ArrayBoundsError): (r: string)
    ensures |r| > 8 && r[0] == ' ' && r[8] == (if e.Only? then '(' else 's')
    ensures r[|r| - 1] == '.' && (if e.Only? then IsDigit(r[|r| - 2]) else r[|r| - 2] == 'e')
    ensures e.MoreThan? ==> |r| >= 6 && r[|r| - 6..] == " more."
  {
    match e
    case Only(found, expected) =>
      var prefix, count := " element(s), found ", Dec(found);
      assert (prefix + count + ".")[8] == prefix[8];
      assert (prefix + count + ".")[|prefix + count + "."| - 2] == count[|count| - 1];
      prefix + count + "."
    case MoreThan(expected) =>
      var prefix := " elements, found ";
      assert (prefix + Dec(expected + 1) + " or more.")[8] == prefix[8];
      prefix + Dec(expected + 1) + " or more."
  }

  /** A decimal number followed by a non-digit is read back unambiguously. */
  lemma DecPrefix(a: nat, x: string, b: nat, y: string)
    requires |x| > 0 && |y| > 0 && !IsDigit(x[0]) && !IsDigit(y[0])
    requires Dec(a) + x == Dec(b) + y
    ensures a == b && x == y
  {
    var da, db := Dec(a), Dec(b);
    var k := if |da| < |db| then |da| else |db|;
    assert (da + x)[k] == (db + y)[k];
    assert |da| == |db|;
    assert da == (da + x)[..|da|] && db == (db + y)[..|db|];
    assert x == (da + x)[|da|..] && y == (db + y)[|db|..];
    DecInjective(a, b);
  }

  /** Different errors are displayed differently. */
  lemma MessageInjective(a: ArrayBoundsError, b: ArrayBoundsError)
    requires Message(a) == Message(b)
    ensures a == b
  {
    AfterHead(a);
    AfterHead(b);
    DecPrefix(a.expected, MessageRest(a), b.expected, MessageRest(b));
    if a.Only? && b.Only? {
      AfterFound(a);
      AfterFound(b);
      DecPrefix(a.found, ".", b.found, ".");
    }
  }

  /** A message with "Expected " taken off. */
  lemma AfterHead(e: ArrayBoundsError)
    ensures Message(e)[9..] == Dec(e.expected) + MessageRest(e)
  {
    var head := "Expected ";
    assert Message(e) == head + (Dec(e.expected) + MessageRest(e));
  }

  /** The rest of an Only message with " element(s), found " taken off. */
  lemma AfterFound(e: ArrayBoundsError)
    requires e.Only?
    ensures MessageRest(e)[19..] == Dec(e.found) + "."
  {
    var prefix := " element(s), found ";
    assert MessageRest(e) == prefix + (Dec(e.found) + ".");
  }

  /** A token of the attribute's input. */
  datatype Token = Ident(name: string) | Keyword(word: string) | Punct(p: char)

  /** AttrArgs. */
  datatype AttrArgs = AttrArgs(structIdent: string, traitIdent: string)

  /** The parse errors of the attribute arguments. */
  datatype SynError = ExpectedIdent | ExpectedFor | UnexpectedToken

  /** AttrArgs::parse, with the whole input consumed: `<Trait> for <Struct>`. */
  function ParseAttrArgs(ts: seq<Token>): (r: Result<AttrArgs, SynError>)
    ensures r.Ok? <==> |ts| == 3 && ts[0].Ident? && ts[1] == Keyword("for") && ts[2].Ident?
    ensures r.Ok? ==> r.value.traitIdent == ts[0].name && r.value.structIdent == ts[2].name
  {
    if |ts| == 0 || !ts[0].Ident? then Err(ExpectedIdent)
    else if |ts| == 1 || ts[1] != Keyword("for") then Err(ExpectedFor)
    else if |ts| == 2 || !ts[2].Ident? then Err(ExpectedIdent)
    else if |ts| > 3 then Err(UnexpectedToken)
    else Ok(AttrArgs(ts[2].name, ts[0].name))
  }

  /** The tokens `<Trait> for <Struct>`. */
  function RenderAttrArgs(a: AttrArgs): seq<Token> {
    [Ident(a.traitIdent), Keyword("for"), Ident(a.structIdent)]
  }

  /** Attribute arguments parse back from their tokens, and only those tokens parse to them. */
  lemma AttrArgsRoundTrip(a: AttrArgs, ts: seq<Token>)
    ensures ParseAttrArgs(RenderAttrArgs(a)) == Ok(a)
    ensures ParseAttrArgs(ts) == Ok(a) ==> ts == RenderAttrArgs(a)
  {
  }

  /** A function argument: a `self` receiver or a typed argument. */
  datatype FnArg = Receiver(selfType: string) | Typed(ty: string)

  /** A trait function: its name, its attributes' paths, its arguments and whether it has a default body. */
  datatype FnItem = FnItem(name: string, attrs: seq<string>, args: seq<FnArg>, hasBody: bool)

  /** A trait item; only functions matter here. */
  datatype TraitItem = Fn(f: FnItem) | OtherItem

  /** `attrs.retain(|attrib| attrib != attr)`. */
  function Without(attrs: seq<string>, attr: string): (r: seq<string>)
    ensures forall x :: x in r <==> x in attrs && x != attr
  {
    if attrs == [] then [] else (if attrs[0] == attr then [] else [attrs[0]]) + Without(attrs[1..], attr)
  }

  predicate Carries(item: TraitItem, attr: string) {
    item.Fn? && attr in item.f.attrs
  }

  function Strip(f: FnItem, attr: string): FnItem {
    f.(attrs := Without(f.attrs, attr))
  }

  /** The functions that carry `attr`, in trait order. */
  function Matches(items: seq<TraitItem>, attr: string): (r: seq<FnItem>)
    ensures |r| <= |items|
    ensures forall i :: 0 <= i < |items| && Carries(items[i], attr) ==> items[i].f in r
    ensures forall f :: f in r ==> attr in f.attrs && Fn(f) in items
  {
    if items == [] then []
    else
      var rest := items[1..];
      assert forall i :: 1 <= i < |items| ==> items[i] == rest[i - 1];
      (if Carries(items[0], attr) then [items[0].f] else []) + Matches(rest, attr)
  }

  /** The carriers among two runs of items are those of the first run, then those of the second. */
  lemma {:induction false} MatchesConcat(a: seq<TraitItem>, b: seq<TraitItem>, attr: string)
    ensures Matches(a + b, attr) == Matches(a, attr) + Matches(b, attr)
    decreases |a|
  {
    if a != [] {
      var head := if Carries(a[0], attr) then [a[0].f] else [];
      assert (a + b)[0] == a[0] && (a + b)[1..] == a[1..] + b;
      assert Matches(a + b, attr) == head + Matches(a[1..] + b, attr);
      MatchesConcat(a[1..], b, attr);
      assert Matches(a, attr) == head + Matches(a[1..], attr);
    } else {
      assert a + b == b;
    }
  }

  /**
   * find_func_by_attr pulled `limit` times: each pull scans on to the next
   * function carrying `attr` and strips the attribute from it. Pulled is the
   * functions pulled, AfterPull the items afterwards.
   */
  function Pulled(items: seq<TraitItem>, attr: string, limit: nat): seq<FnItem>
  {
    if items == [] || limit == 0 then []
    else if Carries(items[0], attr) then [Strip(items[0].f, attr)] + Pulled(items[1..], attr, limit - 1)
    else Pulled(items[1..], attr, limit)
  }

  function AfterPull(items: seq<TraitItem>, attr: string, limit: nat): seq<TraitItem>
  {
    if items == [] || limit == 0 then items
    else if Carries(items[0], attr) then [Fn(Strip(items[0].f, attr))] + AfterPull(items[1..], attr, limit - 1)
    else [items[0]] + AfterPull(items[1..], attr, limit)
  }

  function StripAll(fs: seq<FnItem>, attr: string): (r: seq<FnItem>)
    ensures |r| == |fs| && forall i :: 0 <= i < |fs| ==> r[i] == Strip(fs[i], attr)
    ensures forall i :: 0 <= i < |fs| ==> attr !in r[i].attrs && SameFn(r[i], fs[i])
    ensures forall i :: 0 <= i < |fs| ==> forall x :: x in r[i].attrs <==> x in fs[i].attrs && x != attr
  {
    seq(|fs|, i requires 0 <= i < |fs| => Strip(fs[i], attr))
  }

  /** The pulls yield the first `limit` functions carrying the attribute, with it removed. */
  lemma {:induction false} PullFound(items: seq<TraitItem>, attr: string, limit: nat)
    ensures Pulled(items, attr, limit) == StripAll(Matches(items, attr)[..Min(limit, |Matches(items, attr)|)], attr)
    decreases |items|
  {
    if items != [] && limit != 0 {
      var ms := Matches(items, attr);
      var tail := Matches(items[1..], attr);
      if Carries(items[0], attr) {
        PullFound(items[1..], attr, limit - 1);
        assert ms[..Min(limit, |ms|)] == [items[0].f] + tail[..Min(limit - 1, |tail|)];
      } else {
        PullFound(items[1..], attr, limit);
      }
    }
  }

  /** Pulling changes no item's position, and once every carrier was pulled none carries the attribute. */
  lemma {:induction false} PullStripsAll(items: seq<TraitItem>, attr: string, limit: nat)
    ensures |AfterPull(items, attr, limit)| == |items|
    ensures limit >= |Matches(items, attr)| ==> Matches(AfterPull(items, attr, limit), attr) == []
    decreases |items|
  {
    if items != [] && limit != 0 {
      if Carries(items[0], attr) {
        PullStripsAll(items[1..], attr, limit - 1);
        assert attr !in Strip(items[0].f, attr).attrs;
      } else {
        PullStripsAll(items[1..], attr, limit);
      }
    }
  }

  /** One more item scanned keeps the account of what the pulls have done so far. */
  lemma PullInvariantStep(original: seq<TraitItem>, i: nat, found: seq<FnItem>, done: seq<TraitItem>,
                          attr: string, limit: nat, left: nat)
    requires i < |original| && left > 0
    requires Pulled(original, attr, limit) == found + Pulled(original[i..], attr, left)
    requires AfterPull(original, attr, limit) == done + AfterPull(original[i..], attr, left)
    ensures Carries(original[i], attr) ==>
              && Pulled(original, attr, limit) == (found + [Strip(original[i].f, attr)]) + Pulled(original[i + 1..], attr, left - 1)
              && AfterPull(original, attr, limit) == (done + [Fn(Strip(original[i].f, attr))]) + AfterPull(original[i + 1..], attr, left - 1)
    ensures !Carries(original[i], attr) ==>
              && Pulled(original, attr, limit) == found + Pulled(original[i + 1..], attr, left)
              && AfterPull(original, attr, limit) == (done + [original[i]]) + AfterPull(original[i + 1..], attr, left)
  {
    assert original[i..][0] == original[i] && original[i..][1..] == original[i + 1..];
  }

  /** Two functions alike in all but their attributes. */
  predicate SameFn(f: FnItem, g: FnItem) {
    f.name == g.name && f.args == g.args && f.hasBody == g.hasBody
  }

  /** Pulling for one attribute leaves the functions carrying another where they were. */
  lemma {:induction false} PullKeepsOthers(items: seq<TraitItem>, attr: string, limit: nat, other: string)
    requires other != attr
    ensures var after := Matches(AfterPull(items, attr, limit), other);
            && |after| == |Matches(items, other)|
            && forall k :: 0 <= k < |after| ==> SameFn(after[k], Matches(items, other)[k])
    decreases |items|
  {
    if items != [] && limit != 0 {
      var l := if Carries(items[0], attr) then limit - 1 else limit;
      PullKeepsOthers(items[1..], attr, l, other);
      var rest := AfterPull(items[1..], attr, l);
      var head := AfterPull(items, attr, limit)[0];
      assert AfterPull(items, attr, limit) == [head] + rest;
      assert Carries(head, other) <==> Carries(items[0], other);
      assert Matches([head] + rest, other) == (if Carries(head, other) then [head.f] else []) + Matches(rest, other);
    }
  }

  /** Replacing the element just past a prefix. */
  lemma ReplaceAt<T>(prefix: seq<T>, rest: seq<T>, x: T)
    requires |rest| > 0
    ensures (prefix + rest)[|prefix| := x] == (prefix + [x]) + rest[1..]
  {
  }

  /** find_func_by_attr driven `limit` times over the trait's items, stripping in place. */
  method FindFuncByAttr(items: array<TraitItem>, attr: string, limit: nat) returns (found: seq<FnItem>)
    modifies items
    ensures found == Pulled(old(items[..]), attr, limit)
    ensures items[..] == AfterPull(old(items[..]), attr, limit)
  {
    found := [];
    ghost var original := items[..];
    ghost var done: seq<TraitItem> := [];
    ghost var left := limit;
    var i := 0;
    assert original[i..] == original;
    while i < items.Length && |found| < limit
      invariant 0 <= i <= items.Length && |done| == i && left == limit - |found|
      invariant items[..] == done + original[i..]
      invariant Pulled(original, attr, limit) == found + Pulled(original[i..], attr, left)
      invariant AfterPull(original, attr, limit) == done + AfterPull(original[i..], attr, left)
    {
      PullInvariantStep(original, i, found, done, attr, limit, left);
      assert items[i] == original[i];
      ghost var before := items[..];
      if Carries(items[i], attr) {
        var f := Strip(items[i].f, attr);
        items[i] := Fn(f);
        found := found + [f];
        left := left - 1;
      }
      assert items[..] == (done + [items[i]]) + original[i + 1..] by {
        assert items[..] == before[i := items[i]];
        ReplaceAt(done, original[i..], items[i]);
      }
      done := done + [items[i]];
      i := i + 1;
    }
    assert Pulled(original[i..], attr, left) == [] && AfterPull(original[i..], attr, left) == original[i..];
  }

  /** The errors of #[fn_trait]. */
  datatype MacroError =
    | AnnotationCount(annotation: string, error: ArrayBoundsError)
    | ReceiverArgument
    | MissingArgument(fnName: string)
    | NotSelf(fnName: string)
    | NoBody(fnName: string)

  /**
   * The compile error text of each error. Its last two characters tell the
   * kind of error apart: a receiver error ends in a quote, the others in '.'
   * after a character of their own.
   */
  function ErrorText(e: MacroError): (r: string)
    ensures |r| >= 2
    ensures e.AnnotationCount? ==> r[|r| - 1] == '.' && (r[|r| - 2] == 'e' || IsDigit(r[|r| - 2]))
    ensures e.AnnotationCount? && e.error.MoreThan? ==> |r| >= 6 && r[|r| - 6..] == " more."
    ensures e.ReceiverArgument? <==> r[|r| - 1] == '\''
    ensures e.MissingArgument? ==> r[|r| - 1] == '.' && r[|r| - 2] == 't'
    ensures e.NotSelf? ==> r[|r| - 1] == '.' && r[|r| - 2] == 'r'
    ensures e.NoBody? ==> r[|r| - 1] == '.' && r[|r| - 2] == 'n'
  {
    match e
    case AnnotationCount(annotation, error) =>
      "Invalid number of #[" + annotation + "] annotated elements. " + Message(error)
    case ReceiverArgument => "Trait must contain function named 'safe'"
    case MissingArgument(name) => name + " must take one argument."
    case NotSelf(name) => name + " must take a self parameter."
    case NoBody(name) => name + " must have an implementation."
  }

  /** Errors of different kinds never share a text. */
  lemma ErrorTextKind(a: MacroError, b: MacroError)
    requires ErrorText(a) == ErrorText(b)
    ensures a.AnnotationCount? <==> b.AnnotationCount?
    ensures a.ReceiverArgument? <==> b.ReceiverArgument?
    ensures a.MissingArgument? <==> b.MissingArgument?
    ensures a.NotSelf? <==> b.NotSelf?
    ensures a.NoBody? <==> b.NoBody?
  {
  }

  /** args_to_bare_args: the argument types, provided no argument is a receiver. */
  function BareArgs(args: seq<FnArg>): (r: Result<seq<string>, MacroError>)
    ensures r.Ok? <==> forall i :: 0 <= i < |args| ==> args[i].Typed?
    ensures r.Err? ==> r.error == ReceiverArgument
    ensures r.Ok? ==> |r.value| == |args| && forall i :: 0 <= i < |args| ==> r.value[i] == args[i].ty
  {
    if args == [] then Ok([])
    else if args[0].Receiver? then Err(ReceiverArgument)
    else
      var rest :- BareArgs(args[1..]);
      assert forall i :: 1 <= i < |args| ==> args[i] == args[1..][i - 1];
      Ok([args[0].ty] + rest)
  }

  /**
   * The checks of fp_adapter_trait: a first argument, which is a receiver,
   * and a body; the receiver's type on success.
   */
  function FpAdapterCheck(f: FnItem): (r: Result<string, MacroError>)
    ensures r.Ok? <==> |f.args| > 0 && f.args[0].Receiver? && f.hasBody
    ensures f.args == [] ==> r == Err(MissingArgument(f.name))
    ensures |f.args| > 0 && f.args[0].Typed? ==> r == Err(NotSelf(f.name))
    ensures |f.args| > 0 && f.args[0].Receiver? && !f.hasBody ==> r == Err(NoBody(f.name))
    ensures r.Ok? ==> r.value == f.args[0].selfType
  {
    if f.args == [] then Err(MissingArgument(f.name))
    else if f.args[0].Typed? then Err(NotSelf(f.name))
    else if !f.hasBody then Err(NoBody(f.name))
    else Ok(f.args[0].selfType)
  }

  /** The error count a number of matches gives when it is not exactly one. */
  function CountError(count: nat): ArrayBoundsError
    requires count != 1
  {
    if count == 0 then Only(0, 1) else MoreThan(1)
  }

  /**
   * `find_func_by_attr(..).collect_array::<1>().map_err(annotation_error(..))`:
   * the one function carrying `attr`, stripped of it.
   */
  method Annotated(items: array<TraitItem>, attr: string) returns (r: Result<FnItem, MacroError>)
    modifies items
    ensures items[..] == AfterPull(old(items[..]), attr, 2)
    ensures r.Ok? <==> |Matches(old(items[..]), attr)| == 1
    ensures r.Ok? ==> r.value == Strip(Matches(old(items[..]), attr)[0], attr)
    ensures r.Err? ==> r == Err(AnnotationCount(attr, CountError(|Matches(old(items[..]), attr)|)))
  {
    PullFound(items[..], attr, 2);
    var found := FindFuncByAttr(items, attr, 2);
    var collected, taken := CollectArray(found, 1);
    if collected.Err? {
      return Err(AnnotationCount(attr, collected.error));
    }
    r := Ok(collected.value[0]);
  }

  /** A trait's items with the functions of this name dropped. */
  function WithoutFn(items: seq<TraitItem>, name: string): (r: seq<TraitItem>)
    ensures forall x :: x in r <==> x in items && !(x.Fn? && x.f.name == name)
  {
    if items == [] then []
    else (if items[0].Fn? && items[0].f.name == name then [] else [items[0]]) + WithoutFn(items[1..], name)
  }

  /** The `<name>_fp` getter fn_trait adds for a function. */
  function Getter(f: FnItem): FnItem {
    FnItem(f.name + "_fp", ["inline"], [], true)
  }

  /**
   * fn_trait_result: exactly one function each for #[sig], #[adapter] and
   * #[fp_adapter], in that order of checking; the first two have no receiver
   * and the third passes fp_adapter_trait. The trait then loses the fp_adapter
   * function and gains the two getters.
   */
  method FnTraitResult(items: array<TraitItem>) returns (r: Result<seq<TraitItem>, MacroError>)
    modifies items
    ensures |Matches(old(items[..]), "sig")| != 1 ==>
              r == Err(AnnotationCount("sig", CountError(|Matches(old(items[..]), "sig")|)))
    ensures var sigs := Matches(old(items[..]), "sig");
            |sigs| == 1 && BareArgs(sigs[0].args).Err? ==> r == Err(ReceiverArgument)
    ensures var sigs, adapters := Matches(old(items[..]), "sig"), Matches(old(items[..]), "adapter");
            |sigs| == 1 && BareArgs(sigs[0].args).Ok? && |adapters| != 1 ==>
              r == Err(AnnotationCount("adapter", CountError(|adapters|)))
    ensures var sigs, adapters := Matches(old(items[..]), "sig"), Matches(old(items[..]), "adapter");
            |sigs| == 1 && BareArgs(sigs[0].args).Ok? && |adapters| == 1 && BareArgs(adapters[0].args).Err? ==>
              r == Err(ReceiverArgument)
    ensures var sigs, adapters, fps :=
              Matches(old(items[..]), "sig"), Matches(old(items[..]), "adapter"), Matches(old(items[..]), "fp_adapter");
            |sigs| == 1 && BareArgs(sigs[0].args).Ok? && |adapters| == 1 && BareArgs(adapters[0].args).Ok? && |fps| != 1 ==>
              r == Err(AnnotationCount("fp_adapter", CountError(|fps|)))
    ensures var sigs, adapters, fps :=
              Matches(old(items[..]), "sig"), Matches(old(items[..]), "adapter"), Matches(old(items[..]), "fp_adapter");
            |sigs| == 1 && BareArgs(sigs[0].args).Ok? && |adapters| == 1 && BareArgs(adapters[0].args).Ok? &&
            |fps| == 1 && FpAdapterCheck(fps[0]).Err? ==>
              r == Err(FpAdapterCheck(fps[0]).error)
    ensures r.Ok? <==>
              && |Matches(old(items[..]), "sig")| == 1
              && |Matches(old(items[..]), "adapter")| == 1
              && |Matches(old(items[..]), "fp_adapter")| == 1
              && BareArgs(Matches(old(items[..]), "sig")[0].args).Ok?
              && BareArgs(Matches(old(items[..]), "adapter")[0].args).Ok?
              && FpAdapterCheck(Matches(old(items[..]), "fp_adapter")[0]).Ok?
    ensures r.Ok? ==>
              r.value == WithoutFn(items[..], Matches(old(items[..]), "fp_adapter")[0].name)
                         + [Fn(Getter(Matches(old(items[..]), "sig")[0])), Fn(Getter(Matches(old(items[..]), "adapter")[0]))]
    ensures r.Ok? ==> items[..] == AfterPull(AfterPull(AfterPull(old(items[..]), "sig", 2), "adapter", 2), "fp_adapter", 2)
  {
    ghost var s0 := items[..];
    var sig :- Annotated(items, "sig");
    ghost var s1 := items[..];
    PullKeepsOthers(s0, "sig", 2, "adapter");
    PullKeepsOthers(s0, "sig", 2, "fp_adapter");
    var sigTypes :- BareArgs(sig.args);
    var adapter :- Annotated(items, "adapter");
    PullKeepsOthers(s1, "adapter", 2, "fp_adapter");
    var adapterTypes :- BareArgs(adapter.args);
    var fpAdapter :- Annotated(items, "fp_adapter");
    var receiverType :- FpAdapterCheck(fpAdapter);
    r := Ok(WithoutFn(items[..], fpAdapter.name) + [Fn(Getter(sig)), Fn(Getter(adapter))]);
  }
}
