/**
 The tool contract cache: contracts that servers advertised, kept apart from whether they are advertised
 right now. Two contracts mean the same tool when their semantic fingerprints are equal; `sem` stands for
 that fingerprint, and the contract bytes for the exact one.
 */
module ToolCache {
  import opened Common
  import opened Text

  type Body = string

  datatype Entry = Entry(body: Body, available: bool)

  type Rows = map<string, Entry>

  /** What the active and the staging generations say about the tools of a server. */
  datatype Authority = Authority(baseline: bool, active: map<string, Body>, staging: map<string, Body>)

  datatype Observation = Observation(semanticChanged: bool, availabilityChanged: bool)

  datatype Error = ServerIdRequired | NameRequired | DuplicateName

  function Available(bodies: map<string, Body>): Rows {
    map n | n in bodies :: Entry(bodies[n], true)
  }

  /** Tools that are not cached yet are taken from the staging generation, and then from the active one. */
  function Seeded(rows: Rows, a: Authority): Rows {
    Available(a.active) + Available(a.staging) + rows
  }

  predicate MatchesAuthority(n: string, body: Body, a: Authority, sem: Body -> string) {
    (n in a.active && sem(a.active[n]) == sem(body)) || (n in a.staging && sem(a.staging[n]) == sem(body))
  }

  /** The bytes to keep for an observed contract: an equivalent one that is known already, or its own. */
  function Canonical(n: string, body: Body, stored: Rows, a: Authority, sem: Body -> string): Body {
    if n in a.active && sem(a.active[n]) == sem(body) then a.active[n]
    else if n in a.staging && sem(a.staging[n]) == sem(body) then a.staging[n]
    else if n in stored && sem(stored[n].body) == sem(body) then stored[n].body
    else body
  }

  /** The tool is new, or means something else than the cached one and than the generations say. */
  predicate ChangesMeaning(n: string, body: Body, stored: Rows, a: Authority, sem: Body -> string) {
    a.baseline && !MatchesAuthority(n, body, a, sem) && (n !in stored || sem(stored[n].body) != sem(body))
  }

  /** The cached tools with the observed ones laid over them. */
  function Overlaid(stored: Rows, observed: map<string, Body>, a: Authority, sem: Body -> string): Rows {
    stored + map n | n in observed :: Entry(Canonical(n, observed[n], stored, a, sem), true)
  }

  function Withdrawn(rows: Rows, gone: set<string>): Rows {
    map n | n in rows :: if n in gone then rows[n].(available := false) else rows[n]
  }

  function Recorded(stored: Rows, observed: map<string, Body>, a: Authority, sem: Body -> string): Rows {
    Withdrawn(Overlaid(stored, observed, a, sem), stored.Keys - observed.Keys)
  }

  predicate SomeChange(stored: Rows, observed: map<string, Body>, a: Authority, sem: Body -> string) {
    exists n :: n in observed && ChangesMeaning(n, observed[n], stored, a, sem)
  }

  predicate SomeArrival(stored: Rows, observed: map<string, Body>) {
    exists n :: n in observed && (n !in stored || !stored[n].available)
  }

  predicate SomeDeparture(stored: Rows, gone: set<string>) {
    exists n :: n in gone && n in stored && stored[n].available
  }

  function Verdict(stored: Rows, observed: map<string, Body>, a: Authority, sem: Body -> string): Observation {
    Observation(SomeChange(stored, observed, a, sem),
                SomeArrival(stored, observed) || SomeDeparture(stored, stored.Keys - observed.Keys))
  }

  lemma ObservesOne(stored: Rows, done: map<string, Body>, n: string, body: Body, a: Authority, sem: Body -> string)
    requires n !in done
    ensures Overlaid(stored, done[n := body], a, sem) == Overlaid(stored, done, a, sem)[n := Entry(Canonical(n, body, stored, a, sem), true)]
    ensures SomeChange(stored, done[n := body], a, sem) <==> SomeChange(stored, done, a, sem) || ChangesMeaning(n, body, stored, a, sem)
    ensures SomeArrival(stored, done[n := body]) <==> SomeArrival(stored, done) || n !in stored || !stored[n].available
  {
    hide Overlaid, SomeChange, SomeArrival, Canonical, ChangesMeaning;
    OverlaysOne(stored, done, n, body, a, sem);
    ChangesOne(stored, done, n, body, a, sem);
    ArrivesOne(stored, done, n, body);
  }

  lemma OverlaysOne(stored: Rows, done: map<string, Body>, n: string, body: Body, a: Authority, sem: Body -> string)
    requires n !in done
    ensures Overlaid(stored, done[n := body], a, sem) == Overlaid(stored, done, a, sem)[n := Entry(Canonical(n, body, stored, a, sem), true)]
  {
    hide Canonical;
  }

  lemma ChangesOne(stored: Rows, done: map<string, Body>, n: string, body: Body, a: Authority, sem: Body -> string)
    requires n !in done
    ensures SomeChange(stored, done[n := body], a, sem) <==> SomeChange(stored, done, a, sem) || ChangesMeaning(n, body, stored, a, sem)
  {
    hide ChangesMeaning;
    var more := done[n := body];
    if SomeChange(stored, done, a, sem) {
      var m :| m in done && ChangesMeaning(m, done[m], stored, a, sem);
      assert m in more && ChangesMeaning(m, more[m], stored, a, sem);
    }
    if ChangesMeaning(n, body, stored, a, sem) {
      assert n in more && ChangesMeaning(n, more[n], stored, a, sem);
    }
  }

  lemma ArrivesOne(stored: Rows, done: map<string, Body>, n: string, body: Body)
    requires n !in done
    ensures SomeArrival(stored, done[n := body]) <==> SomeArrival(stored, done) || n !in stored || !stored[n].available
  {
    var more := done[n := body];
    if SomeArrival(stored, done) {
      var m :| m in done && (m !in stored || !stored[m].available);
      assert m in more;
    }
    assert n in more;
  }

  lemma WithdrawsOne(stored: Rows, rows: Rows, gone: set<string>, n: string)
    requires n in rows && n in stored
    ensures n !in gone ==> n in Withdrawn(rows, gone) && Withdrawn(rows, gone)[n] == rows[n]
    ensures Withdrawn(rows, gone + {n}) == Withdrawn(rows, gone)[n := rows[n].(available := false)]
    ensures SomeDeparture(stored, gone + {n}) <==> SomeDeparture(stored, gone) || stored[n].available
  {
    var more := gone + {n};
    if SomeDeparture(stored, gone) {
      var m :| m in gone && m in stored && stored[m].available;
      assert m in more;
    }
    assert n in more;
  }

  function Observe(rows: Rows, observed: map<string, Body>, a: Authority, sem: Body -> string): Rows {
    Recorded(Seeded(rows, a), observed, a, sem)
  }

  /** Whether the exact contract is advertised now; unknown if the tool was never cached. */
  function Availability(rows: Rows, n: string, expected: Body): (bool, bool) {
    if n !in rows then (true, false)
    else if expected != "" && rows[n].body != expected then (false, true)
    else (rows[n].available, true)
  }

  // ---------------------------------------------------------------------------------------------
  // The cache
  // ---------------------------------------------------------------------------------------------

  /** The listed tools by name, unless one has no name or comes twice. */
  function Listing(tools: seq<(string, Body)>): Result<map<string, Body>, Error> {
    if tools == [] then Ok(map[])
    else
      var rest, (n, body) := Listing(tools[..|tools| - 1]), tools[|tools| - 1];
      if rest.Err? then rest
      else if Trim(n) == "" then Err(NameRequired)
      else if n in rest.value then Err(DuplicateName)
      else Ok(rest.value[n := body])
  }

  lemma {:induction false} ListingFails(tools: seq<(string, Body)>, k: nat)
    requires k <= |tools| && Listing(tools[..k]).Err?
    ensures Listing(tools) == Listing(tools[..k])
    decreases |tools|
  {
    if k == |tools| {
      assert tools[..k] == tools;
    } else {
      assert tools[..|tools| - 1][..k] == tools[..k];
      ListingFails(tools[..|tools| - 1], k);
    }
  }

  method CollectListing(tools: seq<(string, Body)>) returns (r: Result<map<string, Body>, Error>)
    ensures r == Listing(tools)
  {
    var observed: map<string, Body> := map[];
    for i := 0 to |tools|
      invariant Listing(tools[..i]) == Ok(observed)
    {
      assert tools[..i + 1][..i] == tools[..i];
      var (n, body) := tools[i];
      if Trim(n) == "" {
        ListingFails(tools, i + 1);
        return Err(NameRequired);
      }
      if n in observed {
        ListingFails(tools, i + 1);
        return Err(DuplicateName);
      }
      observed := observed[n := body];
    }
    assert tools[..|tools|] == tools;
    r := Ok(observed);
  }

  class Cache {
    var servers: map<string, Rows>

    constructor ()
      ensures servers == map[]
    {
      servers := map[];
    }

    function RowsOf(server: string): Rows
      reads this
    {
      if server in servers then servers[server] else map[]
    }

    /** Records what a server lists now: listed tools are stored in canonical form, all others become unavailable. */
    method ObserveServerTools(server: string, tools: seq<(string, Body)>, a: Authority, sem: Body -> string) returns (r: Result<Observation, Error>)
      modifies this
      ensures var id, listing := Trim(server), Listing(tools);
              if id == "" then r == Err(ServerIdRequired) && servers == old(servers)
              else if listing.Err? then r == Err(listing.error) && servers == old(servers)
              else
                && r == Ok(Verdict(Seeded(old(RowsOf(id)), a), listing.value, a, sem))
                && servers == old(servers)[id := Observe(old(RowsOf(id)), listing.value, a, sem)]
    {
      var id := Trim(server);
      if id == "" {
        return Err(ServerIdRequired);
      }
      var listing := CollectListing(tools);
      if listing.Err? {
        return Err(listing.error);
      }
      var rows, result := Reconcile(Seeded(RowsOf(id), a), listing.value, a, sem);
      servers := servers[id := rows];
      r := Ok(result);
    }

    /** The two loops of an observation, over what is listed and over what is cached. */
    method Reconcile(stored: Rows, observed: map<string, Body>, a: Authority, sem: Body -> string) returns (rows: Rows, result: Observation)
      ensures rows == Recorded(stored, observed, a, sem) && result == Verdict(stored, observed, a, sem)
    {
      var changed, arrived, departed;
      rows, changed, arrived := StoreObserved(stored, observed, a, sem);
      rows, departed := WithdrawMissing(stored, rows, observed.Keys);
      result := Observation(changed, arrived || departed);
    }

    /** The loop over the cached tools: those not seen become unavailable. */
    method WithdrawMissing(stored: Rows, first: Rows, seen: set<string>) returns (rows: Rows, departed: bool)
      requires stored.Keys <= first.Keys
      ensures rows == Withdrawn(first, stored.Keys - seen) && departed == SomeDeparture(stored, stored.Keys - seen)
    {
      hide Withdrawn, SomeDeparture;
      rows, departed := first, false;
      NothingWithdrawn(stored, first);
      var todo, gone := stored.Keys, {};
      while todo != {}
        invariant todo <= stored.Keys && gone == stored.Keys - seen - todo
        invariant rows == Withdrawn(first, gone) && departed == SomeDeparture(stored, gone)
        decreases |todo|
      {
        var n :| n in todo;
        todo := todo - {n};
        if n in seen {
          assert gone == stored.Keys - seen - todo;
          continue;
        }
        WithdrawsOne(stored, first, gone, n);
        gone := gone + {n};
        if stored[n].available {
          departed := true;
        }
        rows := rows[n := rows[n].(available := false)];
      }
      assert gone == stored.Keys - seen;
    }

    method StoreObserved(stored: Rows, observed: map<string, Body>, a: Authority, sem: Body -> string)
      returns (rows: Rows, changed: bool, moved: bool)
      ensures rows == Overlaid(stored, observed, a, sem)
      ensures changed == SomeChange(stored, observed, a, sem) && moved == SomeArrival(stored, observed)
    {
      hide Overlaid, SomeChange, SomeArrival;
      rows, changed, moved := stored, false, false;
      var todo := observed.Keys;
      ghost var done: map<string, Body> := map[];
      NothingObserved(stored, a, sem);
      while todo != {}
        invariant todo <= observed.Keys && done == observed - todo
        invariant rows == Overlaid(stored, done, a, sem)
        invariant changed == SomeChange(stored, done, a, sem) && moved == SomeArrival(stored, done)
        decreases |todo|
      {
        var n :| n in todo;
        todo := todo - {n};
        var tool, matches, canonical := observed[n], false, observed[n];
        ObservesOne(stored, done, n, tool, a, sem);
        done := done[n := tool];
        assert done == observed - todo;
        if n in a.active && sem(a.active[n]) == sem(tool) {
          canonical, matches := a.active[n], true;
        } else if n in a.staging && sem(a.staging[n]) == sem(tool) {
          canonical, matches := a.staging[n], true;
        } else if n in stored && sem(stored[n].body) == sem(tool) {
          canonical := stored[n].body;
        }
        if a.baseline && !matches && (n !in stored || sem(stored[n].body) != sem(tool)) {
          changed := true;
        }
        if n !in stored || !stored[n].available {
          moved := true;
        }
        rows := rows[n := Entry(canonical, true)];
      }
      assert done == observed;
    }

    method ToolAvailability(server: string, n: string, expected: Body) returns (available: bool, known: bool)
      ensures (available, known) == Availability(RowsOf(server), n, expected)
    {
      if server !in servers || n !in servers[server] {
        return true, false;
      }
      var row := servers[server][n];
      if expected != "" && row.body != expected {
        return false, true;
      }
      return row.available, true;
    }
  }

  lemma NothingWithdrawn(stored: Rows, rows: Rows)
    ensures Withdrawn(rows, {}) == rows && !SomeDeparture(stored, {})
  {
  }

  lemma NothingObserved(stored: Rows, a: Authority, sem: Body -> string)
    ensures Overlaid(stored, map[], a, sem) == stored && !SomeChange(stored, map[], a, sem) && !SomeArrival(stored, map[])
  {
  }

  // ---------------------------------------------------------------------------------------------
  // Stability
  // ---------------------------------------------------------------------------------------------

  /** The tool is cached, with the contract that this meaning is always stored as. */
  predicate Settled(rows: Rows, n: string, meaning: string, a: Authority, sem: Body -> string) {
    && n in rows && sem(rows[n].body) == meaning
    && (n in a.active && sem(a.active[n]) == meaning ==> rows[n].body == a.active[n])
    && (n in a.staging && sem(a.staging[n]) == meaning && !(n in a.active && sem(a.active[n]) == meaning) ==>
          rows[n].body == a.staging[n])
  }

  /** Observing a tool settles it. */
  lemma ObservationSettles(rows: Rows, observed: map<string, Body>, a: Authority, sem: Body -> string, n: string)
    requires n in observed
    ensures Settled(Observe(rows, observed, a, sem), n, sem(observed[n]), a, sem)
    ensures Observe(rows, observed, a, sem)[n].available
  {
  }

  /** An observation of a settled tool with the same meaning, or without it, keeps its bytes and is no change. */
  lemma SettledStays(rows: Rows, observed: map<string, Body>, a: Authority, sem: Body -> string, n: string, meaning: string)
    requires Settled(rows, n, meaning, a, sem) && (n in observed ==> sem(observed[n]) == meaning)
    ensures var after := Observe(rows, observed, a, sem);
            && Settled(after, n, meaning, a, sem) && after[n].body == rows[n].body
            && (after[n].available <==> n in observed)
    ensures n in observed ==> !ChangesMeaning(n, observed[n], Seeded(rows, a), a, sem)
  {
    assert Seeded(rows, a)[n] == rows[n];
  }

  ghost predicate Path(rs: seq<Rows>, os: seq<map<string, Body>>, a: Authority, sem: Body -> string) {
    |rs| == |os| + 1 && forall i :: 0 <= i < |os| ==> rs[i + 1] == Observe(rs[i], os[i], a, sem)
  }

  /**
   Once observed, a tool keeps its contract bytes over every sequence of observations that list it with
   the same meaning, in whatever decoration, or not at all; none of them counts as a change of it.
   */
  lemma {:induction false} BytesAreStable(rs: seq<Rows>, os: seq<map<string, Body>>, a: Authority, sem: Body -> string, n: string, i: nat)
    requires Path(rs, os, a, sem) && |os| > 0 && n in os[0] && 1 <= i < |rs|
    requires forall k :: 0 <= k < |os| && n in os[k] ==> sem(os[k][n]) == sem(os[0][n])
    ensures Settled(rs[i], n, sem(os[0][n]), a, sem) && rs[i][n].body == rs[1][n].body
    ensures i < |os| && n in os[i] ==> !ChangesMeaning(n, os[i][n], Seeded(rs[i], a), a, sem)
    decreases i
  {
    hide Observe;
    if i == 1 {
      ObservationSettles(rs[0], os[0], a, sem, n);
    } else {
      BytesAreStable(rs, os, a, sem, n, i - 1);
      SettledStays(rs[i - 1], os[i - 1], a, sem, n, sem(os[0][n]));
    }
    if i < |os| {
      SettledStays(rs[i], os[i], a, sem, n, sem(os[0][n]));
    }
  }

  /** Observations that list only tools seen in the first one, each with its meaning, report no semantic change. */
  lemma NoSemanticChange(rs: seq<Rows>, os: seq<map<string, Body>>, a: Authority, sem: Body -> string, i: nat)
    requires Path(rs, os, a, sem) && 1 <= i < |os|
    requires forall k, n :: 0 <= k < |os| && n in os[k] ==> n in os[0] && sem(os[k][n]) == sem(os[0][n])
    ensures !Verdict(Seeded(rs[i], a), os[i], a, sem).semanticChanged
  {
    forall n | n in os[i] ensures !ChangesMeaning(n, os[i][n], Seeded(rs[i], a), a, sem) {
      BytesAreStable(rs, os, a, sem, n, i);
    }
  }

  /** A contract with this meaning was known before: cached, or in the active or the staging generation. */
  predicate Known(rows: Rows, n: string, meaning: string, a: Authority, sem: Body -> string) {
    || (n in rows && sem(rows[n].body) == meaning)
    || (n in a.active && sem(a.active[n]) == meaning)
    || (n in a.staging && sem(a.staging[n]) == meaning)
  }

  function AvailableNames(rows: Rows): set<string> {
    set n | n in rows && rows[n].available
  }

  /** A semantic change is reported exactly if the server has a baseline and lists a tool whose meaning was not known. */
  lemma SemanticChangeMeans(rows: Rows, observed: map<string, Body>, a: Authority, sem: Body -> string)
    ensures Verdict(Seeded(rows, a), observed, a, sem).semanticChanged <==>
              a.baseline && exists n :: n in observed && !Known(rows, n, sem(observed[n]), a, sem)
  {
    var stored := Seeded(rows, a);
    if n :| n in observed && ChangesMeaning(n, observed[n], stored, a, sem) {
      assert n in rows ==> stored[n] == rows[n];
      assert !Known(rows, n, sem(observed[n]), a, sem);
    }
    if n :| a.baseline && n in observed && !Known(rows, n, sem(observed[n]), a, sem) {
      assert n in stored ==> stored[n].body == (if n in rows then rows[n].body else if n in a.staging then a.staging[n] else a.active[n]);
      assert ChangesMeaning(n, observed[n], stored, a, sem);
    }
  }

  /** Afterwards exactly the listed tools are available. */
  lemma ListedAreAvailable(rows: Rows, observed: map<string, Body>, a: Authority, sem: Body -> string)
    ensures AvailableNames(Observe(rows, observed, a, sem)) == observed.Keys
  {
    hide Canonical;
  }

  /** A change of availability is reported exactly if other tools were available before than are listed now. */
  lemma AvailabilityChangeMeans(stored: Rows, observed: map<string, Body>, a: Authority, sem: Body -> string)
    ensures Verdict(stored, observed, a, sem).availabilityChanged <==> AvailableNames(stored) != observed.Keys
  {
    hide SomeChange;
    var before := AvailableNames(stored);
    if n :| n in observed && n !in before {
      assert SomeArrival(stored, observed);
    } else {
      assert observed.Keys <= before;
      if before != observed.Keys {
        var n :| n in before && n !in observed;
        assert n in stored.Keys - observed.Keys;
      }
    }
  }

  /** What is known of a tool without an observation: what is cached, or else the staging contract, or else the active one. */
  function KnownBody(rows: Rows, n: string, a: Authority): Option<Body> {
    if n in rows then Some(rows[n].body)
    else if n in a.staging then Some(a.staging[n])
    else if n in a.active then Some(a.active[n])
    else None
  }

  /** An observation keeps every tool that was known, with its contract unless it is listed with another meaning, and adds the listed ones. */
  lemma ObservationKeeps(rows: Rows, observed: map<string, Body>, a: Authority, sem: Body -> string, n: string)
    ensures var after := Observe(rows, observed, a, sem);
            && (n in after <==> n in observed || KnownBody(rows, n, a).Some?)
            && (n in after && n !in observed ==> KnownBody(rows, n, a) == Some(after[n].body))
            && (n in observed ==> sem(after[n].body) == sem(observed[n]))
            && (n in observed && !Known(rows, n, sem(observed[n]), a, sem) ==> after[n].body == observed[n])
  {
  }

  /** A tool that was never cached counts as available; a cached one if it was listed last time with exactly this contract. */
  lemma AvailabilityMeans(rows: Rows, n: string, expected: Body)
    ensures var (available, known) := Availability(rows, n, expected);
            && (known <==> n in rows)
            && (!known ==> available)
            && (known ==> (available <==> n in AvailableNames(rows) && (expected == "" || rows[n].body == expected)))
  {
  }

  ghost predicate NamesFit(tools: seq<(string, Body)>) {
    && (forall i :: 0 <= i < |tools| ==> Trim(tools[i].0) != "")
    && (forall i, j :: 0 <= i < j < |tools| ==> tools[i].0 != tools[j].0)
  }

  /** A list is accepted exactly if its names are neither blank nor repeated, and then says of each name what was listed. */
  lemma {:induction false} ListingMeans(tools: seq<(string, Body)>)
    ensures Listing(tools).Ok? <==> NamesFit(tools)
    ensures Listing(tools).Ok? ==>
              var m := Listing(tools).value;
              && (forall i :: 0 <= i < |tools| ==> tools[i].0 in m && m[tools[i].0] == tools[i].1)
              && (forall n :: n in m ==> exists i :: 0 <= i < |tools| && tools[i].0 == n)
    ensures Listing(tools) == Err(NameRequired) ==> exists i :: 0 <= i < |tools| && Trim(tools[i].0) == ""
    ensures Listing(tools) == Err(DuplicateName) ==> exists i, j :: 0 <= i < j < |tools| && tools[i].0 == tools[j].0
    ensures Listing(tools).Err? ==> Listing(tools).error in {NameRequired, DuplicateName}
    decreases |tools|
  {
    hide Trim;
    if tools != [] {
      var k := |tools| - 1;
      var init := tools[..k];
      ListingMeans(init);
      assert forall i :: 0 <= i < k ==> init[i] == tools[i];
    }
  }

  /** After any observation, a tool of the active generation is available exactly if an equivalent contract was listed. */
  lemma ActiveAvailability(rows: Rows, observed: map<string, Body>, a: Authority, sem: Body -> string, n: string)
    requires n in a.active && a.active[n] != ""
    ensures var (available, known) := Availability(Observe(rows, observed, a, sem), n, a.active[n]);
            known && (available <==> n in observed && sem(observed[n]) == sem(a.active[n]))
  {
    var stored := Seeded(rows, a);
    assert n in stored;
  }
}
