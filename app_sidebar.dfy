/**
 * The sidebar's main navigation (`AppSidebar`): the four dashboard pages,
 * each marked active when the current path is the page or lies below it.
 */
module AppSidebar {
  import opened Text

  datatype NavIcon = Video | Users | Key | History

  datatype NavItem = NavItem(title: string, url: string, icon: NavIcon)

  /** `navMain`, in menu order. */
  const NavMain: seq<NavItem> := [
    NavItem("Live Streams", "/streams", Video),
    NavItem("Broadcasters", "/broadcasters", Users),
    NavItem("Stream Keys", "/stream-keys", Key),
    NavItem("Audit Log", "/audit-logs", History)
  ]

  /** The active test: the path is the item's url, or starts with the url and a slash. */
  predicate IsActive(pathname: string, url: string) {
    pathname == url || StartsWith(pathname, url + "/")
  }

  /** A bare extension of the url, without the slash, is not below the page. */
  lemma BarePrefixIsNotActive(pathname: string, url: string)
    requires StartsWith(pathname, url) && |pathname| > |url| && pathname[|url|] != '/'
    ensures !IsActive(pathname, url)
  {
    assert pathname[..|url| + 1] != url + "/" by {
      assert pathname[..|url| + 1][|url|] == pathname[|url|];
      assert (url + "/")[|url|] == '/';
    }
  }

  /** An item with its active flag. */
  datatype ActiveItem = ActiveItem(item: NavItem, isActive: bool)

  /** `navMainWithActive`: every item kept, in order, with its flag. */
  function WithActive(items: seq<NavItem>, pathname: string): (r: seq<ActiveItem>)
    ensures |r| == |items|
    ensures forall i :: 0 <= i < |r| ==> r[i].item == items[i]
    ensures forall i :: 0 <= i < |r| ==> (r[i].isActive <==> IsActive(pathname, items[i].url))
  {
    seq(|items|, i requires 0 <= i < |items| => ActiveItem(items[i], IsActive(pathname, items[i].url)))
  }

  /**
   * Two urls that are both active for one path are nested: they are equal,
   * or the shorter one followed by a slash begins the longer.
   */
  lemma BothActiveAreNested(pathname: string, u: string, v: string)
    requires IsActive(pathname, u) && IsActive(pathname, v) && |u| <= |v|
    ensures v == u || StartsWith(v, u + "/")
  {
    assert StartsWith(pathname, u) by {
      if pathname != u { assert (u + "/")[..|u|] == u; assert pathname[..|u|] == pathname[..|u| + 1][..|u|]; }
    }
    assert StartsWith(pathname, v) by {
      if pathname != v { assert (v + "/")[..|v|] == v; assert pathname[..|v|] == pathname[..|v| + 1][..|v|]; }
    }
    assert v[..|u|] == u by { assert v[..|u|] == pathname[..|v|][..|u|]; }
    if v != u {
      assert |v| > |u|;
      assert pathname != u;
      assert pathname[|u|] == '/' by { assert pathname[..|u| + 1][|u|] == (u + "/")[|u|]; }
      assert v[|u|] == pathname[|u|];
      assert v[..|u| + 1] == u + "/";
    }
  }

  /** The menu's urls: distinct, and none is another's url followed by a slash. */
  predicate NoneNested(items: seq<NavItem>) {
    forall i, j :: 0 <= i < |items| && 0 <= j < |items| && i != j ==>
      items[i].url != items[j].url && !StartsWith(items[j].url, items[i].url + "/")
  }

  lemma NavMainIsNotNested()
    ensures NoneNested(NavMain)
  {
    forall i, j | 0 <= i < |NavMain| && 0 <= j < |NavMain| && i != j
      ensures NavMain[i].url != NavMain[j].url && !StartsWith(NavMain[j].url, NavMain[i].url + "/")
    {
      var u := NavMain[i].url;
      var v := NavMain[j].url;
      assert u[|u| - 1] != '/';
      assert forall k :: 1 <= k < |v| ==> v[k] != '/';
      if |u| + 1 <= |v| {
        assert v[..|u| + 1] != u + "/" by {
          assert v[..|u| + 1][|u|] == v[|u|];
          assert (u + "/")[|u|] == '/';
        }
      }
      assert u != v by {
        assert u[1] != v[1] || u[7] != v[7] || |u| != |v|;
      }
    }
  }

  /** For any path, at most one item of the menu is active. */
  lemma AtMostOneActive(pathname: string, i: int, j: int)
    requires 0 <= i < |NavMain| && 0 <= j < |NavMain|
    requires WithActive(NavMain, pathname)[i].isActive && WithActive(NavMain, pathname)[j].isActive
    ensures i == j
  {
    NavMainIsNotNested();
    var u := NavMain[i].url;
    var v := NavMain[j].url;
    if |u| <= |v| {
      BothActiveAreNested(pathname, u, v);
    } else {
      BothActiveAreNested(pathname, v, u);
    }
  }
}
