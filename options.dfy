/**
 * OPTIONS support: which handlers a servlet class declares, and the Allow
 * header built from them (sections 9.2 and 14.7 of RFC 2616).
 */
module Options {
  import opened Wrappers
  import opened HttpTypes

  /**
   * The method names getAllDeclaredMethods collects. chain[0] lists the
   * names the concrete class declares, chain[k + 1] those of the superclass
   * of chain[k]; the chain stops below HttpServlet. A superclass's names
   * come before its subclass's.
   */
  function DeclaredMethods(chain: seq<seq<string>>): seq<string>
  {
    if chain == [] then [] else chain[|chain| - 1] + DeclaredMethods(chain[..|chain| - 1])
  }

  /** A name is collected exactly when some class of the chain declares it. */
  lemma {:induction false} DeclaredMethodsMembership(chain: seq<seq<string>>, name: string)
    ensures name in DeclaredMethods(chain) <==> exists k :: 0 <= k < |chain| && name in chain[k]
  {
    if chain != [] {
      var prefix := chain[..|chain| - 1];
      DeclaredMethodsMembership(prefix, name);
      assert forall k :: 0 <= k < |prefix| ==> prefix[k] == chain[k];
      if name in chain[|chain| - 1] {
        assert 0 <= |chain| - 1 < |chain| && name in chain[|chain| - 1];
      }
    }
  }

  /** getAllDeclaredMethods: walks up the chain, putting each superclass's names first. */
  method GetAllDeclaredMethods(chain: seq<seq<string>>) returns (methods: seq<string>)
    ensures methods == DeclaredMethods(chain)
  {
    var allMethods: Option<seq<string>> := None;
    var i := 0;
    while i < |chain|
      invariant 0 <= i <= |chain|
      invariant allMethods.GetOr([]) == DeclaredMethods(chain[..i])
    {
      assert chain[..i + 1][..i] == chain[..i];
      var thisMethods := chain[i];
      if allMethods.Some? && |allMethods.value| > 0 {
        allMethods := Some(thisMethods + allMethods.value);
      } else {
        allMethods := Some(thisMethods);
      }
      i := i + 1;
    }
    assert chain[..i] == chain;
    methods := allMethods.GetOr([]);
  }

  /** The ALLOW_* flags of doOptions. */
  datatype Allowed = Allowed(get: bool, head: bool, post: bool, put: bool, delete: bool, trace: bool, options: bool)

  /** What the flags are meant to say about a list of declared names. */
  function FlagsFor(names: seq<string>): Allowed
  {
    Allowed("doGet" in names, "doGet" in names, "doPost" in names, "doPut" in names, "doDelete" in names, true, true)
  }

  /** The for-loop of doOptions over the declared methods. */
  method ScanDeclared(methods: seq<string>) returns (f: Allowed)
    ensures f == FlagsFor(methods)
  {
    f := Allowed(false, false, false, false, false, true, true);
    for i := 0 to |methods|
      invariant f == FlagsFor(methods[..i])
    {
      assert methods[..i + 1] == methods[..i] + [methods[i]];
      var methodName := methods[i];
      if methodName == "doGet" {
        f := f.(get := true, head := true);
      } else if methodName == "doPost" {
        f := f.(post := true);
      } else if methodName == "doPut" {
        f := f.(put := true);
      } else if methodName == "doDelete" {
        f := f.(delete := true);
      }
    }
    assert methods[..|methods|] == methods;
  }

  /** The fixed order doOptions lists methods in. */
  const Order: seq<Verb> := [GET, HEAD, POST, PUT, DELETE, TRACE, OPTIONS]

  /** Position of a method in the fixed order. */
  function Rank(v: Verb): (r: nat)
    ensures r < |Order| && Order[r] == v
  {
    match v
    case GET => 0
    case HEAD => 1
    case POST => 2
    case PUT => 3
    case DELETE => 4
    case TRACE => 5
    case OPTIONS => 6
  }

  function Enabled(f: Allowed, v: Verb): bool
  {
    match v
    case GET => f.get
    case HEAD => f.head
    case POST => f.post
    case PUT => f.put
    case DELETE => f.delete
    case TRACE => f.trace
    case OPTIONS => f.options
  }

  /** The members of vs whose flag is set, in the order of vs. */
  function Keep(f: Allowed, vs: seq<Verb>): seq<Verb>
  {
    if vs == [] then []
    else Keep(f, vs[..|vs| - 1]) + (if Enabled(f, vs[|vs| - 1]) then [vs[|vs| - 1]] else [])
  }

  lemma {:induction false} KeepMembers(f: Allowed, vs: seq<Verb>, v: Verb)
    ensures v in Keep(f, vs) <==> v in vs && Enabled(f, v)
  {
    if vs != [] {
      KeepMembers(f, vs[..|vs| - 1], v);
      assert vs == vs[..|vs| - 1] + [vs[|vs| - 1]];
    }
  }

  /** Keep picks from a strictly ranked list a strictly ranked sublist. */
  lemma {:induction false} KeepOrdered(f: Allowed, vs: seq<Verb>)
    requires forall i, j :: 0 <= i < j < |vs| ==> Rank(vs[i]) < Rank(vs[j])
    ensures forall i, j :: 0 <= i < j < |Keep(f, vs)| ==> Rank(Keep(f, vs)[i]) < Rank(Keep(f, vs)[j])
    ensures forall i :: 0 <= i < |Keep(f, vs)| ==> Keep(f, vs)[i] in vs
  {
    if vs != [] {
      var prefix := vs[..|vs| - 1];
      var last := vs[|vs| - 1];
      forall i, j | 0 <= i < j < |prefix|
        ensures Rank(prefix[i]) < Rank(prefix[j])
      {
        assert prefix[i] == vs[i] && prefix[j] == vs[j];
      }
      KeepOrdered(f, prefix);
      var ks := Keep(f, prefix);
      forall i | 0 <= i < |ks|
        ensures ks[i] in vs && Rank(ks[i]) < Rank(last)
      {
        assert ks[i] in prefix;
        var k :| 0 <= k < |prefix| && prefix[k] == ks[i];
        assert vs[k] == ks[i] && k < |vs| - 1;
      }
      var result := Keep(f, vs);
      assert result == ks + (if Enabled(f, last) then [last] else []);
      forall i | 0 <= i < |result|
        ensures result[i] in vs
      {
        if i < |ks| {
          assert result[i] == ks[i];
        }
      }
      forall i, j | 0 <= i < j < |result|
        ensures Rank(result[i]) < Rank(result[j])
      {
        assert result[i] == ks[i];
        if j < |ks| {
          assert result[j] == ks[j];
        } else {
          assert result[j] == last;
        }
      }
    }
  }

  /** The allowed methods in the fixed order GET, HEAD, POST, PUT, DELETE, TRACE, OPTIONS. */
  function AllowedVerbs(f: Allowed): seq<Verb>
  {
    Keep(f, Order)
  }

  /** Tokens separated by ", ". */
  function Join(vs: seq<Verb>): string
  {
    if vs == [] then ""
    else if |vs| == 1 then Token(vs[0])
    else Join(vs[..|vs| - 1]) + ", " + Token(vs[|vs| - 1])
  }

  lemma {:induction false} JoinEmptyIff(vs: seq<Verb>)
    ensures Join(vs) == [] <==> vs == []
  {
    if |vs| > 1 {
      JoinEmptyIff(vs[..|vs| - 1]);
    }
  }

  /** The Allow value; its name is the specification function. */
  function AllowValue(f: Allowed): string
  {
    Join(AllowedVerbs(f))
  }

  /** Keep over one more element of the fixed order. */
  lemma KeepOrderStep(f: Allowed, k: nat)
    requires k < |Order|
    ensures Keep(f, Order[..k + 1]) == Keep(f, Order[..k]) + (if Enabled(f, Order[k]) then [Order[k]] else [])
  {
    assert Order[..k + 1][..k] == Order[..k];
  }

  /**
   * One StringBuilder step of doOptions: when the last method of vs is
   * allowed, a separator unless the value is still empty, then its token.
   */
  lemma JoinKeepStep(f: Allowed, vs: seq<Verb>, allow: string)
    requires vs != [] && allow == Join(Keep(f, vs[..|vs| - 1]))
    ensures Join(Keep(f, vs)) ==
      if Enabled(f, vs[|vs| - 1]) then (if |allow| > 0 then allow + ", " else allow) + Token(vs[|vs| - 1]) else allow
  {
    var listed := Keep(f, vs[..|vs| - 1]);
    var v := vs[|vs| - 1];
    assert Keep(f, vs) == listed + (if Enabled(f, v) then [v] else []);
    JoinEmptyIff(listed);
    if Enabled(f, v) {
      JoinSnoc(listed, v);
    } else {
      assert listed + [] == listed;
    }
  }

  /** Join over one more method: a separator unless the list was empty, then its token. */
  lemma JoinSnoc(ws: seq<Verb>, v: Verb)
    ensures Join(ws + [v]) == (if ws == [] then "" else Join(ws) + ", ") + Token(v)
  {
    var xs := ws + [v];
    assert xs[..|xs| - 1] == ws;
    if ws == [] {
      assert xs == [v];
    }
  }

  /** The value after the first k methods of the fixed order have been considered. */
  ghost function Listed(f: Allowed, k: nat): string
    requires k <= |Order|
  {
    Join(Keep(f, Order[..k]))
  }

  /** After GET alone, the value is its token or nothing. */
  lemma ListedFirst(f: Allowed)
    ensures Listed(f, 1) == if f.get then Token(GET) else ""
  {
    assert Order[..1] == [GET];
    assert Keep(f, [GET]) == (if f.get then [GET] else []) by { assert [GET][..0] == []; }
  }

  /** After every method of the fixed order, the value is the Allow value. */
  lemma ListedAll(f: Allowed)
    ensures Listed(f, |Order|) == AllowValue(f)
  {
    assert Order[..|Order|] == Order;
  }

  /**
   * The block doOptions repeats for each method after GET: when its flag is
   * set, a separator unless the value is still empty, then the token. That
   * extends the value over the k-th method of the fixed order.
   */
  method AppendIfAllowed(allow: string, allowed: bool, v: Verb, ghost f: Allowed, ghost k: nat) returns (r: string)
    requires k < |Order| && v == Order[k] && allowed == Enabled(f, v) && allow == Listed(f, k)
    ensures r == Listed(f, k + 1)
  {
    assert Order[..k + 1][..k] == Order[..k];
    JoinKeepStep(f, Order[..k + 1], allow);
    r := allow;
    if allowed {
      if |r| > 0 {
        r := r + ", ";
      }
      r := r + Token(v);
    }
  }

  /** The StringBuilder part of doOptions. */
  method BuildAllow(f: Allowed) returns (allow: string)
    ensures allow == AllowValue(f)
  {
    ghost var k := 1;
    allow := "";
    if f.get {
      allow := allow + Token(GET);
    }
    ListedFirst(f);
    allow := AppendIfAllowed(allow, f.head, HEAD, f, k);
    k := k + 1;
    allow := AppendIfAllowed(allow, f.post, POST, f, k);
    k := k + 1;
    allow := AppendIfAllowed(allow, f.put, PUT, f, k);
    k := k + 1;
    allow := AppendIfAllowed(allow, f.delete, DELETE, f, k);
    k := k + 1;
    allow := AppendIfAllowed(allow, f.trace, TRACE, f, k);
    k := k + 1;
    allow := AppendIfAllowed(allow, f.options, OPTIONS, f, k);
    k := k + 1;
    ListedAll(f);
  }

  /** The fixed order is strictly increasing in rank. */
  lemma OrderRanked()
    ensures forall i, j :: 0 <= i < j < |Order| ==> Rank(Order[i]) < Rank(Order[j])
  {
    forall i | 0 <= i < |Order|
      ensures Rank(Order[i]) == i
    {
    }
  }

  /**
   * For flags as doOptions sets them (HEAD with GET, TRACE and OPTIONS on):
   * the listed methods are exactly the enabled ones, strictly in the fixed
   * order, HEAD exactly when GET, TRACE and OPTIONS always, and the value is
   * never empty.
   */
  lemma AllowedVerbsFacts(f: Allowed)
    requires f.head == f.get && f.trace && f.options
    ensures var vs := AllowedVerbs(f);
      && (forall v :: v in vs <==> Enabled(f, v))
      && (forall i, j :: 0 <= i < j < |vs| ==> Rank(vs[i]) < Rank(vs[j]))
      && (HEAD in vs <==> GET in vs)
      && TRACE in vs && OPTIONS in vs
      && AllowValue(f) != []
  {
    var vs := AllowedVerbs(f);
    forall v: Verb
      ensures v in vs <==> Enabled(f, v)
    {
      KeepMembers(f, Order, v);
    }
    OrderRanked();
    KeepOrdered(f, Order);
    assert OPTIONS in vs;
    JoinEmptyIff(vs);
  }

  /**
   * The Allow value of a servlet class: each of GET, POST, PUT, DELETE is
   * listed exactly when some class of the chain declares the matching doXxx,
   * with the facts of AllowedVerbsFacts.
   */
  lemma AllowedVerbsOfChain(chain: seq<seq<string>>)
    ensures var vs := AllowedVerbs(FlagsFor(DeclaredMethods(chain)));
      && (HEAD in vs <==> GET in vs)
      && TRACE in vs && OPTIONS in vs
      && AllowValue(FlagsFor(DeclaredMethods(chain))) != []
      && (GET in vs <==> exists k :: 0 <= k < |chain| && "doGet" in chain[k])
      && (POST in vs <==> exists k :: 0 <= k < |chain| && "doPost" in chain[k])
      && (PUT in vs <==> exists k :: 0 <= k < |chain| && "doPut" in chain[k])
      && (DELETE in vs <==> exists k :: 0 <= k < |chain| && "doDelete" in chain[k])
  {
    var f := FlagsFor(DeclaredMethods(chain));
    DeclaredMethodsMembership(chain, "doGet");
    DeclaredMethodsMembership(chain, "doPost");
    DeclaredMethodsMembership(chain, "doPut");
    DeclaredMethodsMembership(chain, "doDelete");
    AllowedVerbsFacts(f);
  }

  /** The methods listed for a servlet that only declares doGet. */
  lemma GetOnlyVerbs()
    ensures AllowedVerbs(Allowed(true, true, false, false, false, true, true)) == [GET, HEAD, TRACE, OPTIONS]
  {
    var f := Allowed(true, true, false, false, false, true, true);
    assert Keep(f, Order[..0]) == [] by { assert Order[..0] == []; }
    KeepOrderStep(f, 0);
    KeepOrderStep(f, 1);
    assert Keep(f, Order[..2]) == [GET, HEAD];
    KeepOrderStep(f, 2);
    KeepOrderStep(f, 3);
    KeepOrderStep(f, 4);
    assert Keep(f, Order[..5]) == [GET, HEAD];
    KeepOrderStep(f, 5);
    KeepOrderStep(f, 6);
    assert Keep(f, Order[..7]) == [GET, HEAD, TRACE, OPTIONS];
    assert Order[..7] == Order;
  }

  /** The value the documentation of doOptions shows for a servlet that only declares doGet. */
  lemma GetOnlyValue()
    ensures AllowValue(Allowed(true, true, false, false, false, true, true)) == "GET, HEAD, TRACE, OPTIONS"
  {
    GetOnlyVerbs();
    var vs := [GET, HEAD, TRACE, OPTIONS];
    assert vs[..3] == [GET, HEAD, TRACE];
    assert [GET, HEAD, TRACE][..2] == [GET, HEAD];
    assert [GET, HEAD][..1] == [GET];
    assert Join([GET]) == "GET";
    assert Join([GET, HEAD]) == "GET" + ", " + "HEAD";
    assert Join([GET, HEAD, TRACE]) == "GET, HEAD" + ", " + "TRACE";
    assert Join(vs) == "GET, HEAD, TRACE" + ", " + "OPTIONS";
  }

  /** A servlet whose classes declare doGet and none of doPost, doPut, doDelete. */
  lemma OnlyDoGetAllow(chain: seq<seq<string>>)
    requires exists k :: 0 <= k < |chain| && "doGet" in chain[k]
    requires forall k :: 0 <= k < |chain| ==> "doPost" !in chain[k] && "doPut" !in chain[k] && "doDelete" !in chain[k]
    ensures AllowValue(FlagsFor(DeclaredMethods(chain))) == "GET, HEAD, TRACE, OPTIONS"
  {
    DeclaredMethodsMembership(chain, "doGet");
    DeclaredMethodsMembership(chain, "doPost");
    DeclaredMethodsMembership(chain, "doPut");
    DeclaredMethodsMembership(chain, "doDelete");
    assert FlagsFor(DeclaredMethods(chain)) == Allowed(true, true, false, false, false, true, true);
    GetOnlyValue();
  }

  /** getAllDeclaredMethods and the loop and StringBuilder of doOptions, before setHeader. */
  method ComputeAllow(chain: seq<seq<string>>) returns (allow: string)
    ensures allow == AllowValue(FlagsFor(DeclaredMethods(chain)))
  {
    var methods := GetAllDeclaredMethods(chain);
    var f := ScanDeclared(methods);
    allow := BuildAllow(f);
  }
}
