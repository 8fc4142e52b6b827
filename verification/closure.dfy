// scripts/gen_proto.py: the messages and enums that a set of root types needs.
module SchemaClosure {

  // A type reference of the extracted schema; an absent key reads as "".
  datatype Ref = Ref(kind: string, name: string)

  // A field refers to its own type and, for a map field, to its value type.
  datatype Field = Field(own: Ref, value: Ref)

  type Messages = map<string, seq<Field>>

  // ---------- reachability ----------

  predicate Names(r: Ref, name: string) {
    (r.kind == "message" || r.kind == "enum") && r.name == name
  }

  // Some field is of this message or enum type, or is a map to it.
  predicate Mentions(fields: seq<Field>, name: string) {
    name != "" && exists i | 0 <= i < |fields| :: Names(fields[i].own, name) || Names(fields[i].value, name)
  }

  predicate Refers(messages: Messages, a: string, b: string) {
    a in messages && Mentions(messages[a], b)
  }

  ghost predicate IsPath(messages: Messages, p: seq<string>) {
    p != [] && forall i | 0 <= i < |p| - 1 :: Refers(messages, p[i], p[i + 1])
  }

  ghost predicate PathTo(messages: Messages, roots: seq<string>, p: seq<string>, name: string) {
    IsPath(messages, p) && p[0] in roots && p[|p| - 1] == name
  }

  ghost predicate Reachable(messages: Messages, roots: seq<string>, name: string) {
    exists p :: PathTo(messages, roots, p, name)
  }

  lemma {:induction false} RootIsReachable(messages: Messages, roots: seq<string>, name: string)
    requires name in roots
    ensures Reachable(messages, roots, name)
  {
    assert PathTo(messages, roots, [name], name);
  }

  lemma {:induction false} StepIsReachable(messages: Messages, roots: seq<string>, a: string, b: string)
    requires Reachable(messages, roots, a) && Refers(messages, a, b)
    ensures Reachable(messages, roots, b)
  {
    var p :| PathTo(messages, roots, p, a);
    var q := p + [b];
    forall i | 0 <= i < |q| - 1
      ensures Refers(messages, q[i], q[i + 1])
    {
      if i < |p| - 1 { assert q[i] == p[i] && q[i + 1] == p[i + 1]; }
    }
    assert PathTo(messages, roots, q, b);
  }

  // Reachability is the least set with the roots that is closed under references.
  ghost predicate IsClosed(messages: Messages, roots: seq<string>, names: iset<string>) {
    && (forall r | r in roots :: r in names)
    && (forall a, b | a in names && Refers(messages, a, b) :: b in names)
  }

  lemma {:induction false} PathStaysInside(messages: Messages, roots: seq<string>, names: iset<string>, p: seq<string>)
    requires IsClosed(messages, roots, names) && IsPath(messages, p) && p[0] in roots
    ensures p[|p| - 1] in names
    decreases |p|
  {
    if |p| > 1 {
      var front := p[..|p| - 1];
      forall i | 0 <= i < |front| - 1
        ensures Refers(messages, front[i], front[i + 1])
      {
        assert front[i] == p[i] && front[i + 1] == p[i + 1];
      }
      PathStaysInside(messages, roots, names, front);
      assert Refers(messages, p[|p| - 2], p[|p| - 1]);
    }
  }

  lemma {:induction false} ReachableIsLeast(messages: Messages, roots: seq<string>, names: iset<string>)
    ensures IsClosed(messages, roots, iset x | Reachable(messages, roots, x))
    ensures IsClosed(messages, roots, names) ==> forall x | Reachable(messages, roots, x) :: x in names
  {
    forall r | r in roots
      ensures Reachable(messages, roots, r)
    {
      RootIsReachable(messages, roots, r);
    }
    forall a, b | Reachable(messages, roots, a) && Refers(messages, a, b)
      ensures Reachable(messages, roots, b)
    {
      StepIsReachable(messages, roots, a, b);
    }
    if IsClosed(messages, roots, names) {
      forall x | Reachable(messages, roots, x)
        ensures x in names
      {
        var p :| PathTo(messages, roots, p, x);
        PathStaysInside(messages, roots, names, p);
      }
    }
  }

  // ---------- the worklist ----------

  // `name` needs no further work: it is recorded, or it names nothing.
  ghost predicate Settled(messages: Messages, enums: set<string>, seen: set<string>, name: string) {
    name in seen || (name !in messages && name !in enums)
  }

  // All that is left to do is on the stack.
  ghost predicate Pending(messages: Messages, enums: set<string>, roots: seq<string>, seen: set<string>, stack: seq<string>) {
    && (forall r | r in roots :: Settled(messages, enums, seen, r) || r in stack)
    && (forall a, b | a in seen && Refers(messages, a, b) :: Settled(messages, enums, seen, b) || b in stack)
  }

  ghost predicate Inv(messages: Messages, enums: set<string>, roots: seq<string>,
                      msgs: set<string>, ens: set<string>, stack: seq<string>)
  {
    && msgs <= messages.Keys
    && ens <= enums - messages.Keys
    && (forall x | x in stack || x in msgs + ens :: Reachable(messages, roots, x))
    && Pending(messages, enums, roots, msgs + ens, stack)
  }

  lemma {:induction false} InvAtStart(messages: Messages, enums: set<string>, roots: seq<string>)
    ensures Inv(messages, enums, roots, {}, {}, roots)
  {
    forall r | r in roots
      ensures Reachable(messages, roots, r)
    {
      RootIsReachable(messages, roots, r);
    }
  }

  lemma {:induction false} DropKeepsInv(messages: Messages, enums: set<string>, roots: seq<string>,
                                        msgs: set<string>, ens: set<string>, stack: seq<string>, name: string)
    requires Inv(messages, enums, roots, msgs, ens, stack + [name])
    requires Settled(messages, enums, msgs + ens, name)
    ensures Inv(messages, enums, roots, msgs, ens, stack)
  {
    assert forall x :: x in stack + [name] <==> x in stack || x == name;
  }

  lemma {:induction false} EnumKeepsInv(messages: Messages, enums: set<string>, roots: seq<string>,
                                        msgs: set<string>, ens: set<string>, stack: seq<string>, name: string)
    requires Inv(messages, enums, roots, msgs, ens, stack + [name])
    requires name in enums && name !in messages
    ensures Inv(messages, enums, roots, msgs, ens + {name}, stack)
  {
    assert forall x :: x in stack + [name] <==> x in stack || x == name;
    assert msgs + (ens + {name}) == (msgs + ens) + {name};
  }

  lemma {:induction false} MessageKeepsInv(messages: Messages, enums: set<string>, roots: seq<string>,
                                           msgs: set<string>, ens: set<string>, stack: seq<string>, name: string,
                                           more: seq<string>)
    requires Inv(messages, enums, roots, msgs, ens, stack + [name])
    requires name in messages
    requires forall x :: x in more <==> x in stack || Mentions(messages[name], x)
    ensures Inv(messages, enums, roots, msgs + {name}, ens, more)
  {
    assert forall x :: x in stack + [name] <==> x in stack || x == name;
    assert (msgs + {name}) + ens == (msgs + ens) + {name};
    forall b | Mentions(messages[name], b)
      ensures Reachable(messages, roots, b)
    {
      StepIsReachable(messages, roots, name, b);
    }
  }

  lemma {:induction false} InvAtEnd(messages: Messages, enums: set<string>, roots: seq<string>, msgs: set<string>, ens: set<string>)
    requires Inv(messages, enums, roots, msgs, ens, [])
    ensures forall x :: x in msgs <==> x in messages && Reachable(messages, roots, x)
    ensures forall x :: x in ens <==> x in enums && x !in messages && Reachable(messages, roots, x)
  {
    ReachableIsLeast(messages, roots, iset x | Settled(messages, enums, msgs + ens, x));
    forall x | Reachable(messages, roots, x)
      ensures Settled(messages, enums, msgs + ens, x)
    {
      assert x in iset y | Settled(messages, enums, msgs + ens, y);
    }
  }

  lemma {:induction false} OneFewer(all: set<string>, seen: set<string>, x: string)
    requires x in all && x !in seen
    ensures |all - (seen + {x})| < |all - seen|
  {
    assert all - (seen + {x}) == (all - seen) - {x};
  }

  lemma {:induction false} SplitTop(stack: seq<string>)
    requires stack != []
    ensures stack == stack[..|stack| - 1] + [stack[|stack| - 1]]
  {
  }

  // transitive_closure: it ends on every schema, cyclic or with dangling
  // references, and finds exactly what is reachable; a name that is both a
  // message and an enum counts as a message.
  method TransitiveClosure(messages: Messages, enums: set<string>, roots: seq<string>)
    returns (seenMsgs: set<string>, seenEnums: set<string>)
    ensures forall x :: x in seenMsgs <==> x in messages && Reachable(messages, roots, x)
    ensures forall x :: x in seenEnums <==> x in enums && x !in messages && Reachable(messages, roots, x)
  {
    seenMsgs, seenEnums := {}, {};
    var stack := roots;
    InvAtStart(messages, enums, roots);
    while |stack| > 0
      invariant Inv(messages, enums, roots, seenMsgs, seenEnums, stack)
      decreases |messages.Keys - seenMsgs| + |enums - seenEnums|, |stack|
    {
      SplitTop(stack);
      var tn, rest := stack[|stack| - 1], stack[..|stack| - 1];
      stack := rest;
      if tn in seenMsgs || tn in seenEnums {
        DropKeepsInv(messages, enums, roots, seenMsgs, seenEnums, rest, tn);
        continue;
      }
      if tn in messages {
        stack := PushTargets(rest, messages[tn]);
        MessageKeepsInv(messages, enums, roots, seenMsgs, seenEnums, rest, tn, stack);
        OneFewer(messages.Keys, seenMsgs, tn);
        seenMsgs := seenMsgs + {tn};
      } else if tn in enums {
        EnumKeepsInv(messages, enums, roots, seenMsgs, seenEnums, rest, tn);
        OneFewer(enums, seenEnums, tn);
        seenEnums := seenEnums + {tn};
      } else {
        DropKeepsInv(messages, enums, roots, seenMsgs, seenEnums, rest, tn);
      }
    }
    InvAtEnd(messages, enums, roots, seenMsgs, seenEnums);
  }

  // One more field to look at.
  lemma {:induction false} MentionsNext(fields: seq<Field>, i: nat, name: string)
    requires i < |fields|
    ensures Mentions(fields[..i + 1], name) <==>
      Mentions(fields[..i], name) || (name != "" && (Names(fields[i].own, name) || Names(fields[i].value, name)))
  {
    forall j | 0 <= j < i ensures fields[..i + 1][j] == fields[..i][j] { }
    if Mentions(fields[..i], name) {
      var j :| 0 <= j < i && (Names(fields[..i][j].own, name) || Names(fields[..i][j].value, name));
      assert Names(fields[..i + 1][j].own, name) || Names(fields[..i + 1][j].value, name);
    }
    assert fields[..i + 1][i] == fields[i];
  }

  // The loop over one message's fields pushes exactly the names it refers to.
  method PushTargets(base: seq<string>, fields: seq<Field>) returns (stack: seq<string>)
    ensures base <= stack
    ensures forall x :: x in stack <==> x in base || Mentions(fields, x)
  {
    stack := base;
    for i := 0 to |fields|
      invariant base <= stack
      invariant forall x :: x in stack <==> x in base || Mentions(fields[..i], x)
    {
      var f := fields[i];
      forall x ensures Mentions(fields[..i + 1], x) <==>
        Mentions(fields[..i], x) || (x != "" && (Names(f.own, x) || Names(f.value, x))) { MentionsNext(fields, i, x); }
      if f.own.kind in ["message", "enum"] && f.own.name != "" {
        stack := stack + [f.own.name];
      }
      if f.value.kind in ["message", "enum"] && f.value.name != "" {
        stack := stack + [f.value.name];
      }
    }
    assert fields[..|fields|] == fields;
  }

  // Hence the order and multiplicity of the roots do not matter.
  lemma {:induction false} RootsAreASet(messages: Messages, roots: seq<string>, others: seq<string>, name: string)
    requires forall r :: r in roots <==> r in others
    ensures Reachable(messages, roots, name) <==> Reachable(messages, others, name)
  {
    if Reachable(messages, roots, name) {
      var p :| PathTo(messages, roots, p, name);
      assert PathTo(messages, others, p, name);
    }
    if Reachable(messages, others, name) {
      var p :| PathTo(messages, others, p, name);
      assert PathTo(messages, roots, p, name);
    }
  }
}
