/**
 * The helper functions of the front end: resolving a host name to a
 * subdomain and then to an application shell, the client-side short-code
 * generator, and the magnitude suffix of formatted numbers.
 */
module Helper {
  import opened Common
  import opened Strings

  /** The host name that marks local development. */
  const LocalHost: string := "localhost"

  /**
   * How many leading labels of a `labels.length`-label host make up the
   * subdomain: `slice(0, -1)` after "localhost", `slice(0, -2)` otherwise.
   * A negative end index counts from the end and stops at 0, as JavaScript's
   * `slice` does.
   */
  function SubdomainLabelCount(labels: seq<string>): (n: nat)
    requires |labels| >= 1
    ensures n <= |labels|
    ensures labels[|labels| - 1] == LocalHost ==> n == |labels| - 1
    ensures labels[|labels| - 1] != LocalHost ==> n == if |labels| >= 2 then |labels| - 2 else 0
  {
    var drop := if labels[|labels| - 1] == LocalHost then 1 else 2;
    if |labels| - drop < 0 then 0 else |labels| - drop
  }

  /**
   * `getSubDomain(location)`: split the host on ".", drop the last label if
   * it is "localhost" and the last two otherwise, and glue what is left
   * together with no separator. The result never holds a dot.
   */
  function SubDomain(hostname: string): (r: string)
    ensures '.' !in r
  {
    var labels := Split(hostname, '.');
    var kept := labels[..SubdomainLabelCount(labels)];
    JoinEmptyAvoids(kept, '.');
    Join(kept, "")
  }

  /**
   * The subdomain of a host given as its dot-free labels is the
   * concatenation of all labels but the last one ("localhost") or the last
   * two (registrable domain and top-level domain).
   */
  lemma SubDomainOfLabels(labels: seq<string>)
    requires |labels| >= 1
    requires forall i :: 0 <= i < |labels| ==> '.' !in labels[i]
    ensures SubDomain(Join(labels, ".")) == Join(labels[..SubdomainLabelCount(labels)], "")
  {
    SplitJoin(labels, '.');
  }

  /** A host with one label only ("localhost", "intranet", "") has the empty subdomain. */
  lemma SingleLabelHost(hostname: string)
    requires '.' !in hostname
    ensures SubDomain(hostname) == ""
  {
    SplitWithoutSeparator(hostname, '.');
  }

  /** The local-development example the code comments name: "url.localhost" has subdomain "url". */
  lemma LocalSubDomainExample()
    ensures SubDomain("url.localhost") == "url"
  {
    assert "url.localhost" == Join(["url", "localhost"], ".");
    SubDomainOfLabels(["url", "localhost"]);
  }

  /** Two labels are always the registrable domain: "example.com" has no subdomain. */
  lemma BareDomainExample()
    ensures SubDomain("example.com") == ""
  {
    assert "example.com" == Join(["example", "com"], ".");
    SubDomainOfLabels(["example", "com"]);
  }

  /** Labels are glued together without a separator: "a.b.example.com" gives "ab". */
  lemma NestedSubDomainExample()
    ensures SubDomain("a.b.example.com") == "ab"
  {
    var labels := ["a", "b", "example", "com"];
    NestedHostLabels();
    SubDomainOfLabels(labels);
    KeptNestedLabels();
  }

  /** The labels of "a.b.example.com", joined back with dots. */
  lemma NestedHostLabels()
    ensures Join(["a", "b", "example", "com"], ".") == "a.b.example.com"
  {
    var labels := ["a", "b", "example", "com"];
    assert Join(labels[2..], ".") == "example.com" by {
      assert labels[2..] == ["example", "com"];
      assert Join(["example", "com"], ".") == "example" + "." + Join(["com"], ".");
    }
    assert Join(labels[1..], ".") == "b.example.com" by {
      assert labels[1..][1..] == labels[2..];
    }
  }

  /** The labels kept for "a.b.example.com" are "a" and "b", run together. */
  lemma KeptNestedLabels()
    ensures var labels := ["a", "b", "example", "com"];
      Join(labels[..SubdomainLabelCount(labels)], "") == "ab"
  {
    var labels := ["a", "b", "example", "com"];
    assert SubdomainLabelCount(labels) == 2;
    assert labels[..2] == ["a", "b"];
    assert Join(["a", "b"], "") == "a" + "" + Join(["b"], "");
  }

  /** An entry of the subdomain registry: which shell serves which subdomain. */
  datatype AppEntry<A> = AppEntry(subdomain: string, app: A, main: bool)

  /**
   * `getApps()` for the host `hostname`: the main entry's shell when the
   * subdomain is empty, otherwise the shell of the first entry whose
   * subdomain is exactly the computed one, falling back to the main entry's.
   * `None` is the TypeError JavaScript raises when it needs the main entry
   * and the registry has none.
   */
  function GetApps<A>(hostname: string, registry: seq<AppEntry<A>>): (r: Option<A>)
    ensures var sub := SubDomain(hostname);
      var main := FindFirst(registry, (e: AppEntry<A>) => e.main);
      var hit := FindFirst(registry, (e: AppEntry<A>) => e.subdomain == sub);
      && (sub == "" ==> r == if main.Some? then Some(registry[main.value].app) else None)
      && (sub != "" && hit.Some? ==> r == Some(registry[hit.value].app))
      && (sub != "" && hit.None? ==> r == if main.Some? then Some(registry[main.value].app) else None)
  {
    var sub := SubDomain(hostname);
    var main := FindFirst(registry, (e: AppEntry<A>) => e.main);
    if sub == "" then
      (if main.Some? then Some(registry[main.value].app) else None)
    else
      match FindFirst(registry, (e: AppEntry<A>) => e.subdomain == sub)
      case Some(i) => Some(registry[i].app)
      case None => if main.Some? then Some(registry[main.value].app) else None
  }

  /**
   * A registry that holds a main entry whose subdomain is "" sends every
   * host to that entry's shell when no other entry is found first.
   */
  lemma GetAppsFallsBackToMain<A>(hostname: string, registry: seq<AppEntry<A>>, m: nat)
    requires m < |registry| && registry[m].main && registry[m].subdomain == ""
    requires forall j :: 0 <= j < |registry| && j != m ==> !registry[j].main && registry[j].subdomain != SubDomain(hostname)
    ensures GetApps(hostname, registry) == Some(registry[m].app)
  {
    var sub := SubDomain(hostname);
    var main := FindFirst(registry, (e: AppEntry<A>) => e.main);
    var hit := FindFirst(registry, (e: AppEntry<A>) => e.subdomain == sub);
    assert main == Some(m);
    if sub != "" {
      assert hit.None?;
    }
  }

  /**
   * `generateShortCode()`: six characters, each drawn from the alphabet.
   * `Math.random()` is modelled as an arbitrary choice of a character.
   */
  method GenerateShortCode() returns (code: string)
    ensures |code| == 6
    ensures OverAlphabet(code)
  {
    code := "";
    for i := 0 to 6
      invariant |code| == i
      invariant OverAlphabet(code)
    {
      assert Alphabet[0] in Alphabet;
      var c :| c in Alphabet;
      code := code + [c];
    }
  }

  /**
   * What `formatNumber(num)` renders: a quotient with one decimal and a
   * suffix, or the number itself.
   */
  datatype Formatted =
    | Scaled(divisor: nat, suffix: string)   // (num / divisor).toFixed(1) + suffix
    | Plain(num: int)                         // num.toString()

  function FormatNumber(num: int): (r: Formatted)
    ensures r.Scaled? && r.suffix == "M" <==> num >= 1000000
    ensures r.Scaled? && r.suffix == "K" <==> 1000 <= num < 1000000
    ensures r.Plain? <==> num < 1000
    ensures r.Scaled? ==> r.divisor > 0 && r.divisor <= num
    ensures r.Scaled? && r.suffix == "K" ==> num < 1000 * r.divisor
    ensures r.Plain? ==> r.num == num
  {
    if num >= 1000000 then Scaled(1000000, "M")
    else if num >= 1000 then Scaled(1000, "K")
    else Plain(num)
  }

  /** The rank of a suffix: none < "K" < "M". */
  function SuffixRank(f: Formatted): nat {
    if f.Plain? then 0 else if f.suffix == "K" then 1 else 2
  }

  /** A larger number never gets a smaller suffix. */
  lemma FormatNumberMonotone(a: int, b: int)
    requires a <= b
    ensures SuffixRank(FormatNumber(a)) <= SuffixRank(FormatNumber(b))
  {
  }
}
