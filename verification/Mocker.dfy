/** The HTTP mocker: a nested table by path and method, against the flat
    specification "the last reply set for this route since the last clear". */
module Mocker {
  import opened Collections
  import opened RequestSpecs
  import Text

  type Response = int

  datatype ConfigEntry = ConfigEntry(request: RequestSpec, response: Response)

  type Methods = map<string, ConfigEntry>
  type Nested = map<string, Methods>

  datatype Answer =
    | Reply(response: Response)
    | MethodNotSupported
    | NoConfigurationExists
    | PathNotRegistered
    | MethodNotRegistered
    | SpecificationDiffers

  const SUPPORTED: set<string> := {"GET", "POST", "PUT", "DELETE", "PATCH"}

  predicate IsMethodSupported(verb: string) {
    Normalize(verb) in SUPPORTED
  }

  // ---------------------------------------------------------------------
  // Specification: the log of calls alone
  // ---------------------------------------------------------------------

  datatype Op =
    | SetReply(entry: ConfigEntry)
    | Clear
    | Serve(request: RequestSpec)

  predicate Sets(op: Op, path: string, verb: string) {
    op.SetReply? && op.entry.request.path == path && op.entry.request.verb == verb && IsMethodSupported(verb)
  }

  /** The last reply set for the route since the last clear. */
  function LastSet(log: seq<Op>, path: string, verb: string): Option<ConfigEntry> {
    if log == [] then None
    else
      var op := log[|log| - 1];
      if op.Clear? then None
      else if Sets(op, path, verb) then Some(op.entry)
      else LastSet(log[..|log| - 1], path, verb)
  }

  ghost predicate Knows(log: seq<Op>, path: string) {
    exists verb :: LastSet(log, path, verb).Some?
  }

  ghost function Expected(log: seq<Op>, r: RequestSpec): Answer {
    if !IsMethodSupported(r.verb) then MethodNotSupported
    else if !exists path :: Knows(log, path) then NoConfigurationExists
    else if !Knows(log, r.path) then PathNotRegistered
    else
      match LastSet(log, r.path, r.verb)
      case None => MethodNotRegistered
      case Some(e) => if e.request == r then Reply(e.response) else SpecificationDiffers
  }

  function Served(log: seq<Op>): seq<RequestSpec> {
    if log == [] then []
    else
      var op := log[|log| - 1];
      Served(log[..|log| - 1]) + if op.Serve? then [op.request] else []
  }

  /** What "last" means: the reply was set for the route at some call, and no later
      call cleared the table or set another one. */
  ghost predicate LastSetAt(log: seq<Op>, path: string, verb: string, i: nat) {
    && i < |log| && Sets(log[i], path, verb)
    && forall j | i < j < |log| :: !log[j].Clear? && !Sets(log[j], path, verb)
  }

  lemma {:induction false} LastSetIff(log: seq<Op>, path: string, verb: string, e: ConfigEntry)
    ensures LastSet(log, path, verb) == Some(e) <==>
            exists i: nat :: LastSetAt(log, path, verb, i) && log[i].entry == e
  {
    if log != [] {
      var n := |log| - 1;
      var init, op := log[..n], log[n];
      LastSetIff(init, path, verb, e);
      if Sets(op, path, verb) {
        assert LastSetAt(log, path, verb, n);
      } else if !op.Clear? {
        forall i: nat ensures LastSetAt(log, path, verb, i) <==> LastSetAt(init, path, verb, i) {
          assert i < n ==> init[i] == log[i];
          assert forall j | i < j < n :: init[j] == log[j];
        }
      }
    }
  }

  lemma SupportedAreCapitals(m: string)
    requires m in SUPPORTED
    ensures Text.IsAscii(m) && Text.ToUpper(m) == m
  {
    assert forall i | 0 <= i < |m| :: Text.IsCapital(m[i]) by {
      if m == "GET" {} else if m == "POST" {} else if m == "PUT" {} else if m == "DELETE" {} else {
        assert m == "PATCH";
      }
    }
    Text.UpperHasNoSmall(m);
  }

  /** The supported methods in any spelling of case, with any blanks around. */
  lemma SupportedSpellings(a: string, verb: string, b: string)
    requires Text.Blank(a) && Text.Blank(b) && Text.Trimmed(verb) && Text.IsAscii(verb)
    ensures IsMethodSupported(a + verb + b) <==> exists m :: m in SUPPORTED && Text.SameSpelling(verb, m)
    ensures SUPPORTED == {"GET", "POST", "PUT", "DELETE", "PATCH"}
  {
    Text.TrimSpaceOf(a, verb, b);
    forall m | m in SUPPORTED ensures Text.ToUpper(verb) == m <==> Text.SameSpelling(verb, m) {
      SupportedAreCapitals(m);
      Text.UpperIffSameLetters(verb, m);
    }
  }

  // ---------------------------------------------------------------------
  // The nested table
  // ---------------------------------------------------------------------

  function Lookup(n: Nested, path: string, verb: string): Option<ConfigEntry> {
    if path in n && verb in n[path] then Some(n[path][verb]) else None
  }

  function Put(n: Nested, e: ConfigEntry): Nested {
    n[e.request.path := (if e.request.path in n then n[e.request.path] else map[])[e.request.verb := e]]
  }

  function Applied(n: Nested, op: Op): Nested {
    match op
    case SetReply(e) => if IsMethodSupported(e.request.verb) then Put(n, e) else n
    case Clear => map[]
    case Serve(_) => n
  }

  function Answered(n: Nested, r: RequestSpec): Answer {
    if !IsMethodSupported(r.verb) then MethodNotSupported
    else if |n| == 0 then NoConfigurationExists
    else if r.path !in n then PathNotRegistered
    else if r.verb !in n[r.path] then MethodNotRegistered
    else if n[r.path][r.verb].request == r then Reply(n[r.path][r.verb].response)
    else SpecificationDiffers
  }

  ghost predicate NoEmptyPath(n: Nested) {
    forall p | p in n :: n[p] != map[]
  }

  predicate KeptUnder(e: ConfigEntry, path: string, verb: string) {
    e.request.path == path && e.request.verb == verb && IsMethodSupported(verb)
  }

  /** Entries stand under their own route. */
  ghost predicate OwnRoutes(n: Nested) {
    forall p, v | p in n && v in n[p] :: KeptUnder(n[p][v], p, v)
  }

  ghost predicate ValidRequests(n: Nested) {
    forall p, v | p in n && v in n[p] :: RequestSpecs.Valid(n[p][v].request)
  }

  ghost predicate Refines(n: Nested, log: seq<Op>) {
    && NoEmptyPath(n) && OwnRoutes(n)
    && (forall p, v :: Lookup(n, p, v) == LastSet(log, p, v))
  }

  lemma PutLookup(n: Nested, e: ConfigEntry, p: string, v: string)
    ensures Lookup(Put(n, e), p, v) ==
      if p == e.request.path && v == e.request.verb then Some(e) else Lookup(n, p, v)
  {}

  lemma PutKeepsShape(n: Nested, e: ConfigEntry)
    requires NoEmptyPath(n) && OwnRoutes(n) && IsMethodSupported(e.request.verb)
    ensures NoEmptyPath(Put(n, e)) && OwnRoutes(Put(n, e))
  {
    forall p | p in Put(n, e) ensures Put(n, e)[p] != map[] {
      if p == e.request.path {
        assert e.request.verb in Put(n, e)[p];
      }
    }
  }

  lemma AppliedRefines(n: Nested, log: seq<Op>, op: Op)
    requires Refines(n, log)
    ensures Refines(Applied(n, op), log + [op])
  {
    var log' := log + [op];
    assert log'[..|log|] == log && log'[|log|] == op;
    if op.SetReply? && IsMethodSupported(op.entry.request.verb) {
      PutKeepsShape(n, op.entry);
      forall p, v ensures Lookup(Put(n, op.entry), p, v) == LastSet(log', p, v) {
        PutLookup(n, op.entry, p, v);
        assert Lookup(n, p, v) == LastSet(log, p, v);
      }
    } else if op.Clear? {
      assert forall p, v :: LastSet(log', p, v) == None;
    } else {
      assert forall p, v :: LastSet(log', p, v) == LastSet(log, p, v);
    }
  }

  function After(log: seq<Op>): Nested {
    if log == [] then map[] else Applied(After(log[..|log| - 1]), log[|log| - 1])
  }

  /** After any sequence of calls the nested table is the flat table, and no
      path is left without methods. */
  lemma {:induction false} AfterRefines(log: seq<Op>)
    ensures Refines(After(log), log)
  {
    if log == [] {
      assert forall p, v :: LastSet(log, p, v) == None;
    } else {
      var n := |log| - 1;
      AfterRefines(log[..n]);
      AppliedRefines(After(log[..n]), log[..n], log[n]);
      assert log == log[..n] + [log[n]];
    }
  }

  lemma KnownPath(n: Nested, log: seq<Op>, path: string)
    requires Refines(n, log)
    ensures path in n <==> Knows(log, path)
  {
    if path in n {
      var v: string :| v in n[path];
      assert Lookup(n, path, v) == LastSet(log, path, v);
    } else {
      forall v ensures LastSet(log, path, v) == None {
        assert Lookup(n, path, v) == LastSet(log, path, v);
      }
    }
  }

  ghost predicate Registered(log: seq<Op>, path: string, verb: string) {
    exists i: nat :: LastSetAt(log, path, verb, i)
  }

  lemma RegisteredIff(log: seq<Op>, path: string, verb: string)
    ensures Registered(log, path, verb) <==> LastSet(log, path, verb).Some?
  {
    if i: nat :| LastSetAt(log, path, verb, i) {
      LastSetIff(log, path, verb, log[i].entry);
    }
    if LastSet(log, path, verb).Some? {
      LastSetIff(log, path, verb, LastSet(log, path, verb).value);
    }
  }

  ghost predicate RegisteredPath(log: seq<Op>, path: string) {
    exists verb :: Registered(log, path, verb)
  }

  lemma KnowsIff(log: seq<Op>, path: string)
    ensures Knows(log, path) <==> RegisteredPath(log, path)
  {
    if verb :| LastSet(log, path, verb).Some? {
      RegisteredIff(log, path, verb);
    }
    if verb :| Registered(log, path, verb) {
      RegisteredIff(log, path, verb);
    }
  }

  /** Which error: that of the first of these that fails. The method is supported,
      anything is registered, the path is, the method is registered for it. */
  lemma ErrorMeans(log: seq<Op>, r: RequestSpec)
    ensures Expected(log, r).MethodNotSupported? <==> !IsMethodSupported(r.verb)
    ensures Expected(log, r).NoConfigurationExists? <==>
              IsMethodSupported(r.verb) && forall path :: !RegisteredPath(log, path)
    ensures Expected(log, r).PathNotRegistered? <==>
              IsMethodSupported(r.verb) && (exists path :: RegisteredPath(log, path)) && !RegisteredPath(log, r.path)
    ensures Expected(log, r).MethodNotRegistered? <==>
              IsMethodSupported(r.verb) && RegisteredPath(log, r.path) && !Registered(log, r.path, r.verb)
  {
    forall path ensures Knows(log, path) <==> RegisteredPath(log, path) {
      KnowsIff(log, path);
    }
    RegisteredIff(log, r.path, r.verb);
    assert LastSet(log, r.path, r.verb).Some? ==> Knows(log, r.path);
  }

  /** With a reply set last for the route: that reply, if its request is the same. */
  lemma ReplyMeans(log: seq<Op>, r: RequestSpec, i: nat)
    requires LastSetAt(log, r.path, r.verb, i)
    ensures Expected(log, r) ==
            if log[i].entry.request == r then Reply(log[i].entry.response) else SpecificationDiffers
  {
    LastSetIff(log, r.path, r.verb, log[i].entry);
    assert Knows(log, r.path);
  }

  lemma AnyPath(n: Nested, log: seq<Op>)
    requires Refines(n, log)
    ensures |n| == 0 <==> !exists path :: Knows(log, path)
  {
    if |n| > 0 {
      var p := Element(n.Keys);
      KnownPath(n, log, p);
    } else {
      forall p ensures !Knows(log, p) {
        KnownPath(n, log, p);
      }
    }
  }

  /** The answer, including which error, is what the log alone specifies. */
  lemma AnsweredAsExpected(n: Nested, log: seq<Op>, r: RequestSpec)
    requires Refines(n, log)
    ensures Answered(n, r) == Expected(log, r)
  {
    AnyPath(n, log);
    KnownPath(n, log, r.path);
    assert Lookup(n, r.path, r.verb) == LastSet(log, r.path, r.verb);
  }

  // ---------------------------------------------------------------------
  // Dump and load
  // ---------------------------------------------------------------------

  predicate SameRoute(a: ConfigEntry, b: ConfigEntry) {
    a.request.path == b.request.path && a.request.verb == b.request.verb
  }

  ghost predicate DistinctRoutes(entries: seq<ConfigEntry>) {
    forall i, j | 0 <= i < j < |entries| :: !SameRoute(entries[i], entries[j])
  }

  predicate Covers(entries: seq<ConfigEntry>, n: Nested, p: string, v: string) {
    p in n && v in n[p] ==> n[p][v] in entries
  }

  /** Every stored entry exactly once, in any order. */
  ghost predicate IsDump(n: Nested, entries: seq<ConfigEntry>) {
    && DistinctRoutes(entries)
    && (forall e | e in entries :: Lookup(n, e.request.path, e.request.verb) == Some(e))
    && (forall p, v :: Covers(entries, n, p, v))
  }

  /** Setting the replies of a dump, one after the other. */
  function Load(entries: seq<ConfigEntry>): seq<Op> {
    seq(|entries|, i requires 0 <= i < |entries| => SetReply(entries[i]))
  }

  lemma {:induction false} LoadedLast(entries: seq<ConfigEntry>, i: nat)
    requires DistinctRoutes(entries) && i < |entries| && IsMethodSupported(entries[i].request.verb)
    ensures LastSet(Load(entries), entries[i].request.path, entries[i].request.verb) == Some(entries[i])
    decreases |entries|
  {
    var n := |entries| - 1;
    assert Load(entries)[..n] == Load(entries[..n]);
    if i < n {
      assert !SameRoute(entries[i], entries[n]);
      LoadedLast(entries[..n], i);
    }
  }

  lemma {:induction false} NothingElseLoaded(entries: seq<ConfigEntry>, p: string, v: string)
    requires forall e | e in entries :: e.request.path != p || e.request.verb != v
    ensures LastSet(Load(entries), p, v) == None
  {
    if entries != [] {
      var n := |entries| - 1;
      assert Load(entries)[..n] == Load(entries[..n]);
      assert entries[n] in entries;
      NothingElseLoaded(entries[..n], p, v);
    }
  }

  /** Two tables with the same entries and no empty paths are the same. */
  lemma SameLookups(m: Nested, n: Nested)
    requires NoEmptyPath(m) && NoEmptyPath(n) && forall p, v :: Lookup(m, p, v) == Lookup(n, p, v)
    ensures m == n
  {
    SamePaths(m, n);
    SamePaths(n, m);
    forall p | p in m ensures m[p] == n[p] {
      forall v ensures v in m[p] <==> v in n[p] {
        assert Lookup(m, p, v) == Lookup(n, p, v);
      }
      forall v | v in m[p] ensures m[p][v] == n[p][v] {
        assert Lookup(m, p, v) == Lookup(n, p, v);
      }
    }
  }

  lemma SamePaths(m: Nested, n: Nested)
    requires NoEmptyPath(m) && forall p, v :: Lookup(m, p, v) == Lookup(n, p, v)
    ensures m.Keys <= n.Keys
  {
    forall p | p in m ensures p in n {
      var v: string :| v in m[p];
      assert Lookup(m, p, v) == Lookup(n, p, v);
    }
  }

  /** Whatever the order of the dump, loading it into an empty mocker restores
      the very same table, and with it every answer. */
  lemma LoadRestores(n: Nested, log: seq<Op>, entries: seq<ConfigEntry>)
    requires Refines(n, log) && IsDump(n, entries)
    ensures After(Load(entries)) == n
  {
    AfterRefines(Load(entries));
    var m := After(Load(entries));
    forall p, v ensures Lookup(m, p, v) == Lookup(n, p, v) {
      assert Lookup(m, p, v) == LastSet(Load(entries), p, v);
      if p in n && v in n[p] {
        assert KeptUnder(n[p][v], p, v) && Covers(entries, n, p, v);
        var i :| 0 <= i < |entries| && entries[i] == n[p][v];
        LoadedLast(entries, i);
      } else {
        NothingElseLoaded(entries, p, v);
      }
    }
    SameLookups(m, n);
  }

  lemma AppliedKeepsRequests(n: Nested, op: Op)
    requires ValidRequests(n) && (op.SetReply? ==> RequestSpecs.Valid(op.entry.request))
    ensures ValidRequests(Applied(n, op))
  {
    if op.SetReply? {
      forall p, v | p in Put(n, op.entry) && v in Put(n, op.entry)[p]
        ensures RequestSpecs.Valid(Put(n, op.entry)[p][v].request)
      {
        PutLookup(n, op.entry, p, v);
      }
    }
  }

  /** One more call, as the object's invariant needs it. */
  lemma AppliedKeeps(n: Nested, log: seq<Op>, op: Op)
    requires Refines(n, log) && ValidRequests(n) && (op.SetReply? ==> RequestSpecs.Valid(op.entry.request))
    ensures Refines(Applied(n, op), log + [op]) && ValidRequests(Applied(n, op))
    ensures Served(log + [op]) == Served(log) + if op.Serve? then [op.request] else []
  {
    AppliedRefines(n, log, op);
    AppliedKeepsRequests(n, op);
    assert (log + [op])[..|log|] == log;
  }

  /** The dump of all paths but `paths`. */
  ghost predicate IsPartialDump(n: Nested, entries: seq<ConfigEntry>, paths: set<string>) {
    && DistinctRoutes(entries)
    && (forall e | e in entries :: Lookup(n, e.request.path, e.request.verb) == Some(e) && e.request.path !in paths)
    && (forall p, v | p !in paths :: Covers(entries, n, p, v))
  }

  /** The same, and of the methods of `path` all but `verbs`. */
  ghost predicate IsPathDump(n: Nested, entries: seq<ConfigEntry>, paths: set<string>, path: string, verbs: set<string>) {
    && DistinctRoutes(entries)
    && (forall e | e in entries :: Lookup(n, e.request.path, e.request.verb) == Some(e))
    && (forall e | e in entries :: e.request.path in paths ==> e.request.path == path && e.request.verb !in verbs)
    && (forall p, v | p !in paths || (p == path && v !in verbs) :: Covers(entries, n, p, v))
  }

  lemma PathDumpStep(n: Nested, entries: seq<ConfigEntry>, paths: set<string>, path: string,
                     verbs: set<string>, verb: string)
    requires IsPathDump(n, entries, paths, path, verbs) && OwnRoutes(n)
    requires path in n && path in paths && verb in verbs && verb in n[path]
    ensures IsPathDump(n, entries + [n[path][verb]], paths, path, verbs - {verb})
  {
    var e := n[path][verb];
    assert KeptUnder(e, path, verb);
    forall i | 0 <= i < |entries| ensures !SameRoute(entries[i], e) {
      assert entries[i] in entries;
    }
    assert e in entries + [e];
    forall p, v | p !in paths || (p == path && v !in verbs - {verb}) ensures Covers(entries + [e], n, p, v) {
      if p != path || v != verb {
        assert Covers(entries, n, p, v);
      }
    }
  }

  lemma PathDumpStart(n: Nested, entries: seq<ConfigEntry>, paths: set<string>, path: string)
    requires IsPartialDump(n, entries, paths) && path in paths && path in n
    ensures IsPathDump(n, entries, paths, path, n[path].Keys)
  {}

  lemma PathDumpEnd(n: Nested, entries: seq<ConfigEntry>, paths: set<string>, path: string)
    requires IsPathDump(n, entries, paths, path, {}) && path in paths
    ensures IsPartialDump(n, entries, paths - {path})
  {}

  // ---------------------------------------------------------------------
  // The object
  // ---------------------------------------------------------------------

  class HttpMocker {
    var configEntries: Nested
    var requestsHistory: seq<RequestSpec>
    ghost var log: seq<Op>

    ghost predicate Valid()
      reads this
    {
      && Refines(configEntries, log)
      && ValidRequests(configEntries)
      && requestsHistory == Served(log)
    }

    constructor ()
      ensures Valid() && log == []
    {
      configEntries, requestsHistory, log := map[], [], [];
    }

    method SetReply(request: RequestSpec, response: Response) returns (ok: bool)
      requires Valid() && RequestSpecs.Valid(request)
      modifies this
      ensures Valid() && log == old(log) + [Op.SetReply(ConfigEntry(request, response))]
      ensures ok == IsMethodSupported(request.verb)
      ensures !ok ==> configEntries == old(configEntries)
      ensures requestsHistory == old(requestsHistory)
    {
      ghost var op := Op.SetReply(ConfigEntry(request, response));
      AppliedKeeps(configEntries, log, op);
      log := log + [op];
      if !IsMethodSupported(request.verb) {
        return false;
      }
      var methodsMap: Methods := map[];
      if request.path in configEntries {
        methodsMap := configEntries[request.path];
      }
      methodsMap := methodsMap[request.verb := ConfigEntry(request, response)];
      configEntries := configEntries[request.path := methodsMap];
      return true;
    }

    method Serve(request: RequestSpec) returns (answer: Answer)
      requires Valid() && RequestSpecs.Valid(request)
      modifies this`requestsHistory, this`log
      ensures Valid() && log == old(log) + [Op.Serve(request)]
      ensures answer == Expected(old(log), request)
      ensures requestsHistory == old(requestsHistory) + [request]
    {
      AnsweredAsExpected(configEntries, log, request);
      AppliedKeeps(configEntries, log, Op.Serve(request));
      log := log + [Op.Serve(request)];
      requestsHistory := requestsHistory + [request];
      if !IsMethodSupported(request.verb) {
        return MethodNotSupported;
      }
      if |configEntries| == 0 {
        return NoConfigurationExists;
      }
      if request.path !in configEntries {
        return PathNotRegistered;
      }
      var methodsMap := configEntries[request.path];
      if request.verb !in methodsMap {
        return MethodNotRegistered;
      }
      var configEntry := methodsMap[request.verb];
      var matches := Equals(configEntry.request, request);
      if matches {
        return Reply(configEntry.response);
      }
      return SpecificationDiffers;
    }

    method ClearConfiguration()
      requires Valid()
      modifies this`configEntries, this`log
      ensures Valid() && log == old(log) + [Op.Clear]
    {
      AppliedKeeps(configEntries, log, Op.Clear);
      log := log + [Op.Clear];
      configEntries := map[];
    }

    method ListRequests() returns (requests: seq<RequestSpec>)
      requires Valid()
      ensures requests == Served(log)
    {
      return requestsHistory;
    }

    method DumpConfiguration() returns (entries: seq<ConfigEntry>)
      requires Valid()
      ensures IsDump(configEntries, entries)
    {
      entries := [];
      var paths := configEntries.Keys;
      while paths != {}
        invariant paths <= configEntries.Keys
        invariant IsPartialDump(configEntries, entries, paths)
        decreases |paths|
      {
        ghost var w := Element(paths);
        var path :| path in paths;
        entries := DumpPath(path, paths, entries);
        paths := paths - {path};
      }
    }

    method DumpPath(path: string, ghost paths: set<string>, entries: seq<ConfigEntry>) returns (entries': seq<ConfigEntry>)
      requires OwnRoutes(configEntries) && path in paths && path in configEntries
      requires IsPartialDump(configEntries, entries, paths)
      ensures IsPartialDump(configEntries, entries', paths - {path})
    {
      entries' := entries;
      var methodMap := configEntries[path];
      var verbs := methodMap.Keys;
      PathDumpStart(configEntries, entries', paths, path);
      while verbs != {}
        invariant verbs <= methodMap.Keys
        invariant IsPathDump(configEntries, entries', paths, path, verbs)
        decreases |verbs|
      {
        ghost var w := Element(verbs);
        var verb :| verb in verbs;
        PathDumpStep(configEntries, entries', paths, path, verbs, verb);
        entries' := entries' + [methodMap[verb]];
        verbs := verbs - {verb};
      }
      PathDumpEnd(configEntries, entries', paths, path);
    }
  }
}
