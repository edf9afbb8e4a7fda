/**
 * The CoreDNS binary's registration (coredns-plugin/cmd/main.go): the
 * plugin's directive is inserted right after the first "rewrite" directive,
 * so it runs after the rewrite plugin; without one the list is unchanged.
 */
module PluginMain {
  import opened Wrappers

  const RewriteDirective := "rewrite"
  const PluginDirective := "egressoperator"

  /** The index of the first occurrence of `x`, if any. */
  function FirstIndex(ds: seq<string>, x: string): (r: Option<nat>)
    ensures r.None? <==> x !in ds
    ensures r.Some? ==> r.value < |ds| && ds[r.value] == x && forall k | 0 <= k < r.value :: ds[k] != x
  {
    if |ds| == 0 then None
    else if ds[0] == x then Some(0)
    else
      var r := FirstIndex(ds[1..], x);
      if r.None? then None else Some(r.value + 1)
  }

  /** The directive list with the plugin inserted after the first "rewrite". */
  function InsertAfterFirstRewrite(ds: seq<string>): (r: seq<string>) {
    match FirstIndex(ds, RewriteDirective)
    case None => ds
    case Some(i) => ds[..i + 1] + [PluginDirective] + ds[i + 1..]
  }

  /** The list `ds` without its element at `k`. */
  function RemoveAt(ds: seq<string>, k: nat): (r: seq<string>)
    requires k < |ds|
  {
    ds[..k] + ds[k + 1..]
  }

  /**
   * Without "rewrite" the list is unchanged; otherwise the plugin lands
   * right after the first "rewrite", the list grows by one, and taking the
   * plugin out again gives back the list, in order.
   */
  lemma InsertedAfterFirstRewrite(ds: seq<string>)
    ensures RewriteDirective !in ds ==> InsertAfterFirstRewrite(ds) == ds
    ensures RewriteDirective in ds ==>
      var i := FirstIndex(ds, RewriteDirective).value;
      var r := InsertAfterFirstRewrite(ds);
      && |r| == |ds| + 1
      && (forall k | 0 <= k < i :: ds[k] != RewriteDirective)
      && r[i] == RewriteDirective && r[i + 1] == PluginDirective
      && r[..i + 1] == ds[..i + 1]
      && RemoveAt(r, i + 1) == ds
  {
    if RewriteDirective in ds {
      var i := FirstIndex(ds, RewriteDirective).value;
      var r := InsertAfterFirstRewrite(ds);
      assert r[..i + 1] == ds[..i + 1];
      assert r[i + 2..] == ds[i + 1..];
      assert RemoveAt(r, i + 1) == ds[..i + 1] + ds[i + 1..];
      assert ds[..i + 1] + ds[i + 1..] == ds;
    }
  }

  /** Only the first "rewrite" matters: later ones are kept as they are, after the plugin. */
  lemma OnlyFirstRewrite(a: seq<string>, b: seq<string>)
    requires RewriteDirective !in a
    ensures InsertAfterFirstRewrite(a + [RewriteDirective] + b) == a + [RewriteDirective, PluginDirective] + b
  {
    var ds := a + [RewriteDirective] + b;
    forall k | 0 <= k < |a|
      ensures ds[k] != RewriteDirective
    {
      assert ds[k] == a[k];
    }
    FirstIsHere(ds, |a|);
    assert ds[..|a| + 1] == a + [RewriteDirective];
    assert ds[|a| + 1..] == b;
  }

  /** The server's global directive list, which init rewrites in place. */
  class Directives {
    var directives: seq<string>

    constructor (directives: seq<string>)
      ensures this.directives == directives
    {
      this.directives := directives;
    }

    /** init: scan for "rewrite", insert the plugin after it, and stop at the first. */
    method Init()
      modifies this
      ensures directives == InsertAfterFirstRewrite(old(directives))
    {
      var i := 0;
      while i < |directives|
        invariant 0 <= i <= |directives|
        invariant directives == old(directives)
        invariant forall k | 0 <= k < i :: directives[k] != RewriteDirective
      {
        if directives[i] == RewriteDirective {
          FirstIsHere(directives, i);
          directives := directives[..i + 1] + [PluginDirective] + directives[i + 1..];
          return;
        }
        i := i + 1;
      }
    }
  }

  lemma FirstIsHere(ds: seq<string>, i: nat)
    requires i < |ds| && ds[i] == RewriteDirective
    requires forall k | 0 <= k < i :: ds[k] != RewriteDirective
    ensures FirstIndex(ds, RewriteDirective) == Some(i)
  {
  }
}
