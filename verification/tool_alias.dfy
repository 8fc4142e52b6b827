// translator/native_tool_adapter.go: a native tool name is resolved to the
// spelling that the client declared. Letter case is folded on A to Z.
module ToolAlias {
  import opened Text

  // toolNameAliases
  const SHELL := ["bash", "shell", "exec_command", "shell_command", "run_terminal_command", "run_terminal_cmd",
                  "run_shell_command", "run_command", "execute", "sh"]
  const WRITE := ["write", "write_file", "create_file", "create", "str_replace_editor"]
  const READ := ["read", "read_file", "open_file", "view"]
  const GREP := ["grep", "ripgrep_search", "grep_search", "search_files"]
  const GLOB := ["glob", "file_search", "find_files"]
  const LS := ["ls", "list_dir", "list_directory", "list_files"]
  const FETCH := ["web_fetch", "webfetch", "fetch_url", "http_get"]
  const SEARCH := ["web_search", "websearch"]
  const ALIASES := [SHELL, WRITE, READ, GREP, GLOB, LS, FETCH, SEARCH]

  datatype Dialect = DeclaredOnly | ClaudeCode

  // claudeCodeFallbackToolNames; "" if there is none
  function Fallback(lower: string): string {
    if lower == "bash" then "Bash"
    else if lower == "read" then "Read"
    else if lower == "write" then "Write"
    else if lower == "grep" then "Grep"
    else if lower == "glob" then "Glob"
    else if lower == "ls" then "LS"
    else if lower == "web_fetch" then "WebFetch"
    else if lower == "web_search" then "WebSearch"
    else ""
  }

  // The first group with this lower-case name, or none.
  function GroupFrom(lower: string, k: nat): seq<string>
    decreases |ALIASES| - k
  {
    if k >= |ALIASES| then [] else if lower in ALIASES[k] then ALIASES[k] else GroupFrom(lower, k + 1)
  }

  function GroupOf(name: string): seq<string> {
    GroupFrom(ToLower(name), 0)
  }

  // ---------- what a name resolves to ----------

  // The declared names, trimmed, without order or multiplicity.
  function Declared(names: seq<string>): (r: set<string>) {
    if names == [] then {}
    else
      var n := TrimSpace(names[|names| - 1]);
      Declared(names[..|names| - 1]) + if n == "" then {} else {n}
  }

  // The declared spellings of a name, up to letter case.
  function Spellings(declared: set<string>, lower: string): set<string> {
    set n | n in declared && ToLower(n) == lower
  }

  predicate InGroup(group: seq<string>, name: string) {
    exists k | 0 <= k < |group| :: ToLower(group[k]) == ToLower(name)
  }

  // The declared spellings of a whole family.
  function Family(declared: set<string>, group: seq<string>): set<string> {
    set n | n in declared && InGroup(group, n)
  }

  ghost function TheOnly(s: set<string>): (r: string)
    requires |s| == 1
    ensures r in s
  {
    var c :| c in s;
    c
  }

  // The name itself if declared as it is; else its only declared spelling; else
  // the only declared name of its family; else it stays.
  ghost function Resolve(declared: set<string>, tool: string): string {
    if tool in declared then tool
    else if |Spellings(declared, ToLower(tool))| == 1 then TheOnly(Spellings(declared, ToLower(tool)))
    else if |Family(declared, GroupOf(tool))| == 1 then TheOnly(Family(declared, GroupOf(tool)))
    else tool
  }

  // The fallback of the dialect is only for names that nobody declared.
  ghost function ResolveFor(declared: set<string>, dialect: Dialect, tool: string): string {
    var r := Resolve(declared, tool);
    if Spellings(declared, ToLower(r)) != {} then r
    else if dialect == ClaudeCode && Fallback(ToLower(r)) != "" then Fallback(ToLower(r))
    else r
  }

  // ---------- laws ----------

  lemma {:induction false} One(s: set<string>, c: string)
    ensures s == {c} ==> |s| == 1 && TheOnly(s) == c
    ensures |s| == 1 && c in s ==> s == {c}
  {
    if |s| == 1 && c in s {
      assert |s - {c}| == 0;
      assert s == {c} + (s - {c});
    }
  }

  // Two different declared names in a set: there is no only one.
  lemma {:induction false} NotOne(s: set<string>, a: string, b: string)
    requires a in s && b in s && a != b
    ensures |s| != 1
  {
    One(s, a);
  }

  // The result is a declared spelling, the fallback, or the name unchanged; a
  // name declared as it is, or as the only one up to letter case, is served.
  lemma {:induction false} ResultIsKnown(declared: set<string>, dialect: Dialect, tool: string)
    ensures var r := ResolveFor(declared, dialect, tool);
      || r in declared
      || (r == tool && Spellings(declared, ToLower(tool)) != {})
      || (Spellings(declared, ToLower(tool)) == {} &&
          (r == tool || (dialect == ClaudeCode && r == Fallback(ToLower(tool)) != "")))
    ensures tool in declared ==> ResolveFor(declared, dialect, tool) == tool
    ensures forall c | Spellings(declared, ToLower(tool)) == {c} :: ResolveFor(declared, dialect, tool) == c
  {
    var r := Resolve(declared, tool);
    if r in declared { assert r in Spellings(declared, ToLower(r)); }
    forall c | Spellings(declared, ToLower(tool)) == {c}
      ensures r == c && c in declared && ResolveFor(declared, dialect, tool) == c
    {
      One(Spellings(declared, ToLower(tool)), c);
      assert c in Spellings(declared, ToLower(tool));
      if tool in declared { assert tool in Spellings(declared, ToLower(tool)); }
    }
  }

  lemma {:induction false} ResolveTwice(declared: set<string>, tool: string)
    ensures Resolve(declared, Resolve(declared, tool)) == Resolve(declared, tool)
  {
  }

  lemma {:induction false} Undeclared(declared: set<string>, name: string)
    ensures Spellings(declared, ToLower(name)) == {} ==> name !in declared
  {
    assert name in declared ==> name in Spellings(declared, ToLower(name));
  }

  lemma {:induction false} FamilyIsDeclared(declared: set<string>, group: seq<string>, name: string)
    ensures name in Family(declared, group) ==> name in declared
  {
  }

  // Names that fold to the same letters resolve alike when nothing is declared
  // for them.
  lemma {:induction false} SameFold(declared: set<string>, a: string, b: string)
    requires ToLower(a) == ToLower(b) && Spellings(declared, ToLower(a)) == {}
    requires Resolve(declared, a) == a
    ensures Resolve(declared, b) == b
  {
    Undeclared(declared, a);
    Undeclared(declared, b);
    FamilyIsDeclared(declared, GroupOf(a), a);
  }

  // The one way in which a second resolution differs from the first: web_fetch
  // is not declared, `webfetch` is, in one spelling that is not the fallback, and
  // another name of the family is declared too.
  predicate Unsettled(declared: set<string>, dialect: Dialect, tool: string) {
    && dialect == ClaudeCode
    && ToLower(tool) == "web_fetch"
    && Spellings(declared, "web_fetch") == {}
    && |Spellings(declared, "webfetch")| == 1
    && "WebFetch" !in declared
    && Spellings(declared, "fetch_url") + Spellings(declared, "http_get") != {}
  }

  lemma {:induction false} FetchNames()
    ensures ToLower("web_fetch") == "web_fetch" && ToLower("webfetch") == "webfetch"
    ensures ToLower("fetch_url") == "fetch_url" && ToLower("http_get") == "http_get"
    ensures ToLower("WebFetch") == "webfetch"
  {
  }

  lemma {:induction false} SearchNames()
    ensures ToLower("web_search") == "web_search" && ToLower("websearch") == "websearch"
    ensures ToLower("WebSearch") == "websearch"
  {
  }

  lemma {:induction false} PlainNames(lower: string)
    requires lower in ["bash", "read", "write", "grep", "glob", "ls"]
    ensures ToLower(Fallback(lower)) == lower && Fallback(lower) != ""
  {
    assert ToLower("Bash") == "bash" && ToLower("Read") == "read" && ToLower("Write") == "write";
    assert ToLower("Grep") == "grep" && ToLower("Glob") == "glob" && ToLower("LS") == "ls";
  }

  lemma {:induction false} FetchGroup(name: string)
    requires ToLower(name) == "web_fetch" || ToLower(name) == "webfetch"
    ensures GroupOf(name) == FETCH
  {
    var l := ToLower(name);
    assert l !in SHELL && l !in WRITE && l !in READ && l !in GREP && l !in GLOB && l !in LS && l in FETCH;
  }

  lemma {:induction false} SearchGroup(name: string)
    requires ToLower(name) == "web_search" || ToLower(name) == "websearch"
    ensures GroupOf(name) == SEARCH
  {
    var l := ToLower(name);
    assert l !in SHELL && l !in WRITE && l !in READ && l !in GREP && l !in GLOB && l !in LS && l !in FETCH && l in SEARCH;
  }

  lemma {:induction false} InFetch(name: string)
    ensures InGroup(FETCH, name) <==> ToLower(name) in ["web_fetch", "webfetch", "fetch_url", "http_get"]
  {
    FetchNames();
    var l := ToLower(name);
    assert l == "web_fetch" ==> ToLower(FETCH[0]) == l;
    assert l == "webfetch" ==> ToLower(FETCH[1]) == l;
    assert l == "fetch_url" ==> ToLower(FETCH[2]) == l;
    assert l == "http_get" ==> ToLower(FETCH[3]) == l;
  }

  lemma {:induction false} InSearch(name: string)
    ensures InGroup(SEARCH, name) <==> ToLower(name) in ["web_search", "websearch"]
  {
    SearchNames();
    var l := ToLower(name);
    assert l == "web_search" ==> ToLower(SEARCH[0]) == l;
    assert l == "websearch" ==> ToLower(SEARCH[1]) == l;
  }

  lemma {:induction false} FetchFamily(declared: set<string>)
    requires Spellings(declared, "web_fetch") == {}
    ensures Family(declared, FETCH) ==
      Spellings(declared, "webfetch") + (Spellings(declared, "fetch_url") + Spellings(declared, "http_get"))
  {
    forall n | n in declared
      ensures InGroup(FETCH, n) <==> ToLower(n) in ["webfetch", "fetch_url", "http_get"]
    {
      InFetch(n);
      assert ToLower(n) == "web_fetch" ==> n in Spellings(declared, "web_fetch");
    }
  }

  lemma {:induction false} SearchFamily(declared: set<string>)
    requires Spellings(declared, "web_search") == {}
    ensures Family(declared, SEARCH) == Spellings(declared, "websearch")
  {
    forall n | n in declared
      ensures InGroup(SEARCH, n) <==> ToLower(n) == "websearch"
    {
      InSearch(n);
      assert ToLower(n) == "web_search" ==> n in Spellings(declared, "web_search");
    }
  }

  lemma {:induction false} ExtraMakesTwo(s: set<string>, more: set<string>)
    requires |s| == 1 && s !! more
    ensures |s + more| == 1 <==> more == {}
  {
    if more == {} {
      assert s + more == s;
    } else {
      var a, b :| a in s && b in more;
      NotOne(s + more, a, b);
    }
  }

  // A tool whose name is not declared and gets a fallback: unless it is
  // web_fetch, the fallback resolves to itself.
  lemma {:induction false} FallbackSettles(declared: set<string>, tool: string)
    requires Spellings(declared, ToLower(tool)) == {} && Resolve(declared, tool) == tool
    requires Fallback(ToLower(tool)) != "" && ToLower(tool) != "web_fetch"
    ensures var f := Fallback(ToLower(tool)); ResolveFor(declared, ClaudeCode, f) == f
  {
    var f := Fallback(ToLower(tool));
    if ToLower(tool) == "web_search" {
      SearchNames();
      SearchGroup(tool);
      SearchGroup(f);
      SearchFamily(declared);
      Undeclared(declared, tool);
      FamilyIsDeclared(declared, SEARCH, tool);
      assert Resolve(declared, f) == f;
    } else {
      PlainNames(ToLower(tool));
      SameFold(declared, tool, f);
    }
  }

  lemma {:induction false} FetchSettles(declared: set<string>, tool: string)
    requires ToLower(tool) == "web_fetch" && Spellings(declared, "web_fetch") == {} && Resolve(declared, tool) == tool
    ensures ResolveFor(declared, ClaudeCode, tool) == "WebFetch"
    ensures ResolveFor(declared, ClaudeCode, "WebFetch") == "WebFetch" <==> !Unsettled(declared, ClaudeCode, tool)
  {
    FetchNames();
    FetchGroup(tool);
    FetchGroup("WebFetch");
    FetchFamily(declared);
    Undeclared(declared, tool);
    FamilyIsDeclared(declared, FETCH, tool);
    var own, more := Spellings(declared, "webfetch"), Spellings(declared, "fetch_url") + Spellings(declared, "http_get");
    assert |own + more| != 1;
    if "WebFetch" in declared {
      assert "WebFetch" in own;
    } else if |own| == 1 {
      ExtraMakesTwo(own, more);
      var c := TheOnly(own);
      assert c in declared && c != "WebFetch";
      assert Resolve(declared, "WebFetch") == c;
      assert c in Spellings(declared, ToLower(c));
    }
  }

  // Resolving twice is resolving once, except in that one way.
  lemma {:induction false} ResolvingTwice(declared: set<string>, dialect: Dialect, tool: string)
    ensures var f := ResolveFor(declared, dialect, tool);
      ResolveFor(declared, dialect, f) == f <==> !Unsettled(declared, dialect, tool)
  {
    var r := Resolve(declared, tool);
    ResolveTwice(declared, tool);
    if Spellings(declared, ToLower(r)) != {} {
      if Unsettled(declared, dialect, tool) { UnsettledStays(declared, dialect, tool); }
    } else {
      Undeclared(declared, r);
      assert r == tool;
      if dialect == ClaudeCode && Fallback(ToLower(tool)) != "" {
        if ToLower(tool) == "web_fetch" {
          FetchSettles(declared, tool);
        } else {
          FallbackSettles(declared, tool);
        }
      }
    }
  }

  // In that way the tool's own name is left alone by the aliases.
  lemma {:induction false} UnsettledStays(declared: set<string>, dialect: Dialect, tool: string)
    requires Unsettled(declared, dialect, tool)
    ensures Resolve(declared, tool) == tool && Spellings(declared, ToLower(tool)) == {}
  {
    FetchGroup(tool);
    FetchFamily(declared);
    Undeclared(declared, tool);
    ExtraMakesTwo(Spellings(declared, "webfetch"), Spellings(declared, "fetch_url") + Spellings(declared, "http_get"));
  }

  // Such a catalogue exists.
  lemma {:induction false} SecondResolutionDiffers()
    ensures var declared := {"webfetch", "fetch_url"};
      ResolveFor(declared, ClaudeCode, "web_fetch") == "WebFetch" &&
      ResolveFor(declared, ClaudeCode, "WebFetch") == "webfetch"
  {
    var declared := {"webfetch", "fetch_url"};
    FetchNames();
    assert Spellings(declared, "web_fetch") == {};
    assert Spellings(declared, "webfetch") == {"webfetch"};
    assert "fetch_url" in Spellings(declared, "fetch_url");
    One(Spellings(declared, "webfetch"), "webfetch");
    UnsettledStays(declared, ClaudeCode, "web_fetch");
    FetchSettles(declared, "web_fetch");
    assert Resolve(declared, "WebFetch") == "webfetch";
  }

  // ---------- the families and the fallbacks ----------

  // Different names, in lower case, for one kind of tool.
  predicate Alike(a: string, b: string) {
    || {a, b} <= {"bash", "shell", "sh", "execute", "exec_command", "shell_command", "run_command", "run_shell_command",
                  "run_terminal_cmd", "run_terminal_command"}
    || {a, b} <= {"read", "view", "read_file", "open_file"}
    || {a, b} <= {"write", "create", "write_file", "create_file", "str_replace_editor"}
    || {a, b} <= {"ls", "list_dir", "list_directory", "list_files"}
    || {a, b} <= {"glob", "file_search", "find_files"}
    || {a, b} <= {"grep", "grep_search", "ripgrep_search", "search_files"}
    || {a, b} <= {"web_search", "websearch"}
    || {a, b} <= {"web_fetch", "webfetch", "fetch_url", "http_get"}
  }

  lemma {:induction false} FirstGroup(a: string)
    ensures GroupFrom(a, 0) ==
      if a in SHELL then SHELL else if a in WRITE then WRITE else if a in READ then READ else if a in GREP then GREP
      else if a in GLOB then GLOB else if a in LS then LS else if a in FETCH then FETCH else if a in SEARCH then SEARCH else []
  {
    assert GroupFrom(a, 0) == if a in SHELL then SHELL else GroupFrom(a, 1);
    assert GroupFrom(a, 1) == if a in WRITE then WRITE else GroupFrom(a, 2);
    assert GroupFrom(a, 2) == if a in READ then READ else GroupFrom(a, 3);
    assert GroupFrom(a, 3) == if a in GREP then GREP else GroupFrom(a, 4);
    assert GroupFrom(a, 4) == if a in GLOB then GLOB else GroupFrom(a, 5);
    assert GroupFrom(a, 5) == if a in LS then LS else GroupFrom(a, 6);
    assert GroupFrom(a, 6) == if a in FETCH then FETCH else GroupFrom(a, 7);
    assert GroupFrom(a, 7) == if a in SEARCH then SEARCH else [];
  }

  lemma {:induction false} ShellAlike(a: string, b: string)
    requires a in SHELL
    ensures b in SHELL <==> Alike(a, b)
  {
  }

  lemma {:induction false} WriteAlike(a: string, b: string)
    requires a in WRITE
    ensures b in WRITE <==> Alike(a, b)
  {
  }

  lemma {:induction false} ReadAlike(a: string, b: string)
    requires a in READ
    ensures b in READ <==> Alike(a, b)
  {
  }

  lemma {:induction false} GrepAlike(a: string, b: string)
    requires a in GREP
    ensures b in GREP <==> Alike(a, b)
  {
  }

  lemma {:induction false} GlobAlike(a: string, b: string)
    requires a in GLOB
    ensures b in GLOB <==> Alike(a, b)
  {
  }

  lemma {:induction false} LsAlike(a: string, b: string)
    requires a in LS
    ensures b in LS <==> Alike(a, b)
  {
  }

  lemma {:induction false} FetchAlike(a: string, b: string)
    requires a in FETCH
    ensures b in FETCH <==> Alike(a, b)
  {
  }

  lemma {:induction false} SearchAlike(a: string, b: string)
    requires a in SEARCH
    ensures b in SEARCH <==> Alike(a, b)
  {
  }

  lemma {:induction false} OfNoGroup(a: string, b: string)
    requires a !in SHELL && a !in WRITE && a !in READ && a !in GREP && a !in GLOB && a !in LS && a !in FETCH && a !in SEARCH
    ensures !Alike(a, b)
  {
  }

  lemma {:induction false} GroupIsAlike(a: string, b: string)
    ensures b in GroupFrom(a, 0) <==> Alike(a, b)
  {
    FirstGroup(a);
    if a in SHELL {
      ShellAlike(a, b);
    } else if a in WRITE {
      WriteAlike(a, b);
    } else if a in READ {
      ReadAlike(a, b);
    } else if a in GREP {
      GrepAlike(a, b);
    } else if a in GLOB {
      GlobAlike(a, b);
    } else if a in LS {
      LsAlike(a, b);
    } else if a in FETCH {
      FetchAlike(a, b);
    } else if a in SEARCH {
      SearchAlike(a, b);
    } else {
      OfNoGroup(a, b);
    }
  }

  lemma {:induction false} GroupsAreLower(lower: string, k: nat, i: nat)
    requires k <= |ALIASES| && i < |GroupFrom(lower, k)|
    ensures ToLower(GroupFrom(lower, k)[i]) == GroupFrom(lower, k)[i]
    decreases |ALIASES| - k
  {
    if k < |ALIASES| && lower in ALIASES[k] {
      AliasIsLower(k, i);
    } else {
      GroupsAreLower(lower, k + 1, i);
    }
  }

  lemma {:induction false} AliasIsLower(k: nat, i: nat)
    requires k < |ALIASES| && i < |ALIASES[k]|
    ensures ToLower(ALIASES[k][i]) == ALIASES[k][i]
  {
    LowerStays(ALIASES[k][i]);
  }

  lemma {:induction false} InGroupIsAlike(tool: string, name: string)
    ensures InGroup(GroupOf(tool), name) <==> Alike(ToLower(tool), ToLower(name))
  {
    var group := GroupOf(tool);
    GroupIsAlike(ToLower(tool), ToLower(name));
    forall k | 0 <= k < |group| ensures ToLower(group[k]) == group[k] { GroupsAreLower(ToLower(tool), 0, k); }
  }

  // With one declared tool, exactly the names of its kind resolve to it, in any
  // letter case; every other name stays.
  lemma {:induction false} OnlyTool(tool: string, declared: string)
    ensures Resolve({declared}, tool) ==
      if ToLower(tool) == ToLower(declared) || Alike(ToLower(tool), ToLower(declared)) then declared else tool
  {
    InGroupIsAlike(tool, declared);
    var spellings, family := Spellings({declared}, ToLower(tool)), Family({declared}, GroupOf(tool));
    assert spellings == if ToLower(tool) == ToLower(declared) then {declared} else {};
    assert family == if InGroup(GroupOf(tool), declared) then {declared} else {};
    One(spellings, declared);
    One(family, declared);
  }

  predicate IsLower(s: string) {
    forall c | c in s :: !('A' <= c <= 'Z')
  }

  lemma {:induction false} LowerStays(s: string)
    requires IsLower(s)
    ensures ToLower(s) == s
  {
    assert forall i | 0 <= i < |s| :: s[i] in s;
  }

  lemma {:induction false} PlainFallbacks(lower: string)
    ensures forall c | c in {"Bash", "Read", "Write", "Grep", "Glob", "LS"} && ToLower(c) == lower :: Fallback(lower) == c
    ensures Fallback(lower) == "" || lower in {"web_fetch", "web_search"}
            || (Fallback(lower) in {"Bash", "Read", "Write", "Grep", "Glob", "LS"} && ToLower(Fallback(lower)) == lower)
  {
    assert ToLower("Bash") == "bash" && ToLower("Read") == "read" && ToLower("Write") == "write";
    assert ToLower("Grep") == "grep" && ToLower("Glob") == "glob" && ToLower("LS") == "ls";
  }

  // With nothing declared, eight names become the spellings of Claude Code, in
  // that dialect only; every other name stays.
  lemma {:induction false} NoTool(tool: string)
    ensures ResolveFor({}, DeclaredOnly, tool) == tool
    ensures var r := ResolveFor({}, ClaudeCode, tool);
      && (forall c | c in {"Bash", "Read", "Write", "Grep", "Glob", "LS"} && EqualFold(tool, c) :: r == c)
      && (EqualFold(tool, "WEB_FETCH") ==> r == "WebFetch")
      && (EqualFold(tool, "WEB_SEARCH") ==> r == "WebSearch")
      && (r == tool || EqualFold(tool, "WEB_FETCH") || EqualFold(tool, "WEB_SEARCH")
          || (r in {"Bash", "Read", "Write", "Grep", "Glob", "LS"} && EqualFold(tool, r)))
  {
    NothingDeclared(tool);
    PlainFallbacks(ToLower(tool));
    UpperWebNames();
    assert Spellings({}, ToLower(tool)) == {};
  }

  lemma {:induction false} UpperWebNames()
    ensures ToLower("WEB_FETCH") == "web_fetch" && ToLower("WEB_SEARCH") == "web_search"
  {
  }

  // ---------- the loops ----------

  // aliasGroupOf
  method AliasGroupOf(name: string) returns (group: seq<string>)
    ensures group == GroupOf(name)
  {
    var lower := ToLower(name);
    for k := 0 to |ALIASES|
      invariant GroupOf(name) == GroupFrom(lower, k)
    {
      var found := false;
      for i := 0 to |ALIASES[k]|
        invariant !found && lower !in ALIASES[k][..i]
      {
        if ALIASES[k][i] == lower {
          found := true;
          return ALIASES[k];
        }
      }
      assert ALIASES[k][..|ALIASES[k]|] == ALIASES[k];
    }
    return [];
  }

  // The index of the declared names by lower case, and the lower-case forms with
  // several spellings.
  ghost predicate Indexes(declared: set<string>, byLower: map<string, string>, ambiguous: set<string>) {
    forall l ::
      && (l in byLower <==> Spellings(declared, l) != {})
      && (l in byLower ==> byLower[l] in Spellings(declared, l))
      && (l in ambiguous <==> Spellings(declared, l) != {} && |Spellings(declared, l)| != 1)
  }

  lemma {:induction false} OneMoreName(declared: set<string>, n: string, l: string)
    ensures Spellings(declared + {n}, l) == Spellings(declared, l) + if ToLower(n) == l then {n} else {}
  {
  }

  lemma {:induction false} IndexAt(declared: set<string>, byLower: map<string, string>, ambiguous: set<string>, n: string, l: string)
    requires Indexes(declared, byLower, ambiguous)
    ensures var clash := ToLower(n) in byLower && byLower[ToLower(n)] != n;
      var byLower' := if clash then byLower else byLower[ToLower(n) := n];
      var ambiguous' := if clash then ambiguous + {ToLower(n)} else ambiguous;
      var now := Spellings(declared + {n}, l);
      && (l in byLower' <==> now != {})
      && (l in byLower' ==> byLower'[l] in now)
      && (l in ambiguous' <==> now != {} && |now| != 1)
  {
    OneMoreName(declared, n, l);
    var before := Spellings(declared, l);
    if ToLower(n) != l {
      assert before + {} == before;
    } else if l !in byLower {
      assert before + {n} == {n};
    } else if byLower[l] == n {
      assert before + {n} == before;
    } else {
      NotOne(before + {n}, byLower[l], n);
    }
  }

  lemma {:induction false} IndexOne(declared: set<string>, byLower: map<string, string>, ambiguous: set<string>, n: string)
    requires Indexes(declared, byLower, ambiguous)
    ensures var l := ToLower(n);
      if l in byLower && byLower[l] != n then Indexes(declared + {n}, byLower, ambiguous + {l})
      else Indexes(declared + {n}, byLower[l := n], ambiguous)
  {
    forall l { IndexAt(declared, byLower, ambiguous, n, l); }
  }

  method IndexNames(names: seq<string>) returns (byLower: map<string, string>, ambiguous: set<string>)
    ensures Indexes(Declared(names), byLower, ambiguous)
  {
    byLower, ambiguous := map[], {};
    for i := 0 to |names|
      invariant Indexes(Declared(names[..i]), byLower, ambiguous)
    {
      assert names[..i + 1][..i] == names[..i];
      var n := TrimSpace(names[i]);
      if n == "" {
        assert Declared(names[..i + 1]) == Declared(names[..i]);
        continue;
      }
      IndexOne(Declared(names[..i]), byLower, ambiguous, n);
      var lower := ToLower(n);
      if lower in byLower && byLower[lower] != n {
        ambiguous := ambiguous + {lower};
        continue;
      }
      byLower := byLower[lower := n];
    }
    assert names[..|names|] == names;
  }

  method IsDeclared(names: seq<string>, tool: string) returns (found: bool)
    requires tool != ""
    ensures found <==> tool in Declared(names)
  {
    for i := 0 to |names|
      invariant tool !in Declared(names[..i])
    {
      assert names[..i + 1][..i] == names[..i];
      if TrimSpace(names[i]) == tool {
        DeclaredGrows(names, i + 1, tool);
        return true;
      }
    }
    assert names[..|names|] == names;
    return false;
  }

  lemma {:induction false} DeclaredGrows(names: seq<string>, i: nat, n: string)
    requires i <= |names| && n in Declared(names[..i])
    ensures n in Declared(names)
    decreases |names| - i
  {
    if i == |names| {
      assert names[..i] == names;
    } else {
      assert names[..i + 1][..i] == names[..i];
      DeclaredGrows(names, i + 1, n);
    }
  }

  lemma {:induction false} IndexLookup(declared: set<string>, byLower: map<string, string>, ambiguous: set<string>, l: string)
    requires Indexes(declared, byLower, ambiguous)
    ensures if l in byLower && l !in ambiguous
            then |Spellings(declared, l)| == 1 && TheOnly(Spellings(declared, l)) == byLower[l]
            else |Spellings(declared, l)| != 1
  {
    if l in byLower { One(Spellings(declared, l), byLower[l]); }
  }

  lemma {:induction false} NoBlankName(names: seq<string>)
    ensures "" !in Declared(names)
  {
    if names != [] { NoBlankName(names[..|names| - 1]); }
  }

  // ApplyClientToolAlias
  method ApplyClientToolAlias(tool: string, names: seq<string>) returns (resolved: string)
    ensures resolved == if tool == "" then "" else Resolve(Declared(names), tool)
  {
    ghost var declared := Declared(names);
    resolved := tool;
    if tool == "" || |names| == 0 {
      NothingDeclared(tool);
      return;
    }
    var exactly := IsDeclared(names, tool);
    if exactly {
      return;
    }
    var byLower, ambiguous := IndexNames(names);
    var lower := ToLower(tool);
    IndexLookup(declared, byLower, ambiguous, lower);
    if lower in byLower && lower !in ambiguous {
      return byLower[lower];
    }
    var group := AliasGroupOf(tool);
    if |group| == 0 {
      assert Family(declared, group) == {};
      return;
    }
    NoBlankName(names);
    var candidate := OnlyOfFamily(group, byLower, ambiguous, declared);
    One(Family(declared, group), candidate);
    if candidate != "" {
      resolved := candidate;
    }
  }

  lemma {:induction false} NothingDeclared(tool: string)
    ensures Resolve({}, tool) == tool
  {
    assert Spellings({}, ToLower(tool)) == {} && Family({}, GroupOf(tool)) == {};
  }

  lemma {:induction false} FamilyNext(declared: set<string>, group: seq<string>, k: nat)
    requires k < |group|
    ensures Family(declared, group[..k + 1]) == Family(declared, group[..k]) + Spellings(declared, ToLower(group[k]))
  {
    forall n | n in declared
      ensures InGroup(group[..k + 1], n) <==> InGroup(group[..k], n) || ToLower(n) == ToLower(group[k])
    {
      if InGroup(group[..k], n) {
        var i :| 0 <= i < k && ToLower(group[..k][i]) == ToLower(n);
        assert group[..k + 1][i] == group[..k][i];
      }
      if ToLower(n) == ToLower(group[k]) { assert group[..k + 1][k] == group[k]; }
      if InGroup(group[..k + 1], n) {
        var i :| 0 <= i <= k && ToLower(group[..k + 1][i]) == ToLower(n);
        if i < k { assert group[..k][i] == group[..k + 1][i]; }
      }
    }
  }

  lemma {:induction false} FamilyGrows(declared: set<string>, group: seq<string>, k: nat, n: string)
    requires k <= |group| && n in Family(declared, group[..k])
    ensures n in Family(declared, group)
  {
    var i :| 0 <= i < k && ToLower(group[..k][i]) == ToLower(n);
    assert ToLower(group[i]) == ToLower(n);
  }

  // The loop over a group: the only declared name of the family, or none.
  method OnlyOfFamily(group: seq<string>, byLower: map<string, string>, ambiguous: set<string>, ghost declared: set<string>)
    returns (candidate: string)
    requires Indexes(declared, byLower, ambiguous) && "" !in declared
    ensures candidate == "" ==> |Family(declared, group)| != 1
    ensures candidate != "" ==> Family(declared, group) == {candidate} && |Family(declared, group)| == 1
  {
    candidate := "";
    for k := 0 to |group|
      invariant Family(declared, group[..k]) == if candidate == "" then {} else {candidate}
    {
      FamilyNext(declared, group, k);
      var lower := ToLower(group[k]);
      ghost var spelled := Spellings(declared, lower);
      if lower in ambiguous {
        SeveralSpellings(declared, group, k, byLower[lower]);
        return "";
      }
      if lower in byLower {
        var exact := byLower[lower];
        One(spelled, exact);
        if candidate != "" && candidate != exact {
          FamilyGrows(declared, group, k + 1, exact);
          FamilyGrows(declared, group, k + 1, candidate);
          NotOne(Family(declared, group), exact, candidate);
          return "";
        }
        candidate := exact;
      }
    }
    assert group[..|group|] == group;
  }

  lemma {:induction false} SeveralSpellings(declared: set<string>, group: seq<string>, k: nat, a: string)
    requires k < |group| && a in Spellings(declared, ToLower(group[k])) && |Spellings(declared, ToLower(group[k]))| != 1
    ensures |Family(declared, group)| != 1
  {
    var spelled := Spellings(declared, ToLower(group[k]));
    assert spelled != {a};
    var b :| b in spelled && b != a;
    assert a in Family(declared, group) && b in Family(declared, group);
    NotOne(Family(declared, group), a, b);
  }

  lemma {:induction false} ResolvedIsNotEmpty(names: seq<string>, tool: string)
    requires tool != ""
    ensures Resolve(Declared(names), tool) != ""
  {
    NoBlankName(names);
  }

  // ApplyClientToolContract
  method ApplyClientToolContract(tool: string, names: seq<string>, dialect: Dialect) returns (resolved: string)
    ensures resolved == if tool == "" then "" else ResolveFor(Declared(names), dialect, tool)
  {
    if tool == "" {
      return "";
    }
    resolved := ApplyClientToolAlias(tool, names);
    ResolvedIsNotEmpty(names, tool);
    var lower := ToLower(resolved);
    for i := 0 to |names|
      invariant Spellings(Declared(names[..i]), lower) == {}
    {
      var n := TrimSpace(names[i]);
      assert names[..i + 1][..i] == names[..i];
      if EqualFold(n, resolved) {
        DeclaredGrows(names, i + 1, n);
        assert n in Spellings(Declared(names), lower);
        return;
      }
      if n != "" { OneMoreName(Declared(names[..i]), n, lower); }
      assert Declared(names[..i]) + {} == Declared(names[..i]);
    }
    assert names[..|names|] == names;
    if dialect != ClaudeCode {
      return;
    }
    if Fallback(lower) != "" {
      resolved := Fallback(lower);
    }
  }

  // ---------- order and multiplicity ----------

  predicate Lists(names: seq<string>, n: string) {
    exists i | 0 <= i < |names| :: TrimSpace(names[i]) == n
  }

  lemma {:induction false} DeclaredMembers(names: seq<string>, n: string)
    ensures n in Declared(names) <==> n != "" && Lists(names, n)
  {
    if names != [] {
      var last := |names| - 1;
      DeclaredMembers(names[..last], n);
      if Lists(names[..last], n) {
        var i :| 0 <= i < last && TrimSpace(names[..last][i]) == n;
        assert TrimSpace(names[i]) == n;
      }
      if Lists(names, n) {
        var i :| 0 <= i < |names| && TrimSpace(names[i]) == n;
        if i < last { assert TrimSpace(names[..last][i]) == n; }
      }
    }
  }

  // The result depends only on which trimmed names are declared.
  lemma {:induction false} OrderDoesNotMatter(names: seq<string>, others: seq<string>, dialect: Dialect, tool: string)
    requires forall n :: n != "" ==> (Lists(names, n) <==> Lists(others, n))
    ensures ResolveFor(Declared(names), dialect, tool) == ResolveFor(Declared(others), dialect, tool)
  {
    forall n
      ensures n in Declared(names) <==> n in Declared(others)
    {
      DeclaredMembers(names, n);
      DeclaredMembers(others, n);
    }
    assert Declared(names) == Declared(others);
  }
}
