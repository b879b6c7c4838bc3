/**
 * The shared page chrome of the older static site, js/template.js: the
 * navigation links, which link is marked active for the current address, and
 * the collapsible menu's `show` class.
 */
module Template {
  import opened Wrappers
  import opened Text
  import opened Sequences

  /** The sections of the home page, in menu order. */
  const Sections: seq<string> := ["home", "about", "achievements", "robots", "contact"]

  const IndexPage: string := "index.html"

  datatype NavLink = NavLink(href: string, text: string)

  /** A section link: a bare fragment on the home page, otherwise the home page plus the fragment. */
  function SectionHref(pathname: string, section: string): (h: string)
    ensures h == "#" + section || h == IndexPage + "#" + section
    ensures h[0] == '#' <==> Contains(pathname, IndexPage)
  {
    if Contains(pathname, IndexPage) then "#" + section else IndexPage + "#" + section
  }

  const MembersLink: NavLink := NavLink("members.html", "Members")
  const ResultsLink: NavLink := NavLink("results.html", "Results")

  /** The `.nav-link` anchors of the injected navigation bar, in document order. */
  function NavLinks(pathname: string): (links: seq<NavLink>)
    ensures |links| == |Sections| + 2
    ensures forall k :: 0 <= k < |Sections| ==>
      links[k] == NavLink(SectionHref(pathname, Sections[k]), Capitalize(Sections[k]))
    ensures links[|Sections|] == MembersLink && links[|Sections| + 1] == ResultsLink
  {
    seq(|Sections|, k requires 0 <= k < |Sections| => NavLink(SectionHref(pathname, Sections[k]), Capitalize(Sections[k])))
      + [MembersLink, ResultsLink]
  }

  /** A section's text is its name with the first letter upper-cased. */
  lemma SectionLabels(pathname: string)
    ensures var links := NavLinks(pathname);
      links[0].text == "Home" && links[1].text == "About" && links[2].text == "Achievements"
      && links[3].text == "Robots" && links[4].text == "Contact"
  {
    var links := NavLinks(pathname);
    assert links[0].text == Capitalize("home") == [UpperChar('h')] + "ome";
    assert links[1].text == Capitalize("about") == [UpperChar('a')] + "bout";
    assert links[2].text == Capitalize("achievements") == [UpperChar('a')] + "chievements";
    assert links[3].text == Capitalize("robots") == [UpperChar('r')] + "obots";
    assert links[4].text == Capitalize("contact") == [UpperChar('c')] + "ontact";
  }

  /** `pathname.split("/").pop() || "index.html"`. */
  function CurrentPage(pathname: string): (page: string)
    ensures page != [] && '/' !in page
    ensures page == IndexPage || page == Split(pathname, '/')[|Split(pathname, '/')| - 1]
  {
    var fields := Split(pathname, '/');
    var last := fields[|fields| - 1];
    if last == "" then IndexPage else last
  }

  /** The current page is the file name after the last slash. */
  lemma CurrentPageIsFileName(dir: string, file: string)
    requires file != [] && '/' !in file
    ensures CurrentPage(dir + "/" + file) == file
  {
    SplitLast(dir, '/', file);
  }

  /** A path that ends in a slash is the home page. */
  lemma DirectoryIsIndex(dir: string)
    ensures CurrentPage(dir + "/") == IndexPage
  {
    SplitLast(dir, '/', "");
    assert dir + "/" == dir + ['/'] + "";
  }

  /**
   * The `href` the active-link query looks for: the fragment, verbatim, on the
   * home page; the page's own file name everywhere else.
   */
  function LookupTarget(pathname: string, hash: string): (t: string)
    ensures t != []
    ensures CurrentPage(pathname) != IndexPage || hash == "" ==> t == CurrentPage(pathname)
    ensures CurrentPage(pathname) == IndexPage && hash != "" ==> t == hash
  {
    var page := CurrentPage(pathname);
    if page == IndexPage && hash != "" then hash else page
  }

  /** `document.querySelector('.nav-link[href="target"]')`: the first link with that `href`. */
  function ActiveIndex(links: seq<NavLink>, target: string): (r: Option<nat>)
    ensures r.Some? ==> r.value < |links| && links[r.value].href == target
    ensures r.Some? ==> forall j :: 0 <= j < r.value ==> links[j].href != target
    ensures r.None? ==> forall j :: 0 <= j < |links| ==> links[j].href != target
  {
    FindFirst(links, (l: NavLink) => l.href == target)
  }

  /** The query finds link `i` when it is the first with that `href`. */
  lemma ActiveIndexIs(links: seq<NavLink>, target: string, i: nat)
    requires i < |links| && links[i].href == target
    requires forall j :: 0 <= j < i ==> links[j].href != target
    ensures ActiveIndex(links, target) == Some(i)
  {
  }

  /** No section link is the bare name of another page. */
  lemma SectionHrefNotPage(pathname: string, k: nat, page: string)
    requires k < |Sections| && page != [] && page[0] != '#' && page[0] != 'i'
    ensures NavLinks(pathname)[k].href != page
  {
    var h := NavLinks(pathname)[k].href;
    assert h[0] == '#' || h[0] == 'i';
  }

  /** No section link is a plain page name, whatever the path. */
  lemma {:induction false} NoSectionLinkIs(pathname: string, page: string)
    requires page != [] && page[0] != '#' && page[0] != 'i'
    ensures forall j :: 0 <= j < |Sections| ==> NavLinks(pathname)[j].href != page
  {
    forall j | 0 <= j < |Sections| ensures NavLinks(pathname)[j].href != page {
      SectionHrefNotPage(pathname, j, page);
    }
  }

  /** On members.html or results.html, that page's own link is the active one. */
  lemma {:induction false} SubpageLinkActive(dir: string, k: nat)
    requires k < 2
    ensures var file := if k == 0 then "members.html" else "results.html";
      ActiveIndex(NavLinks(dir + "/" + file), LookupTarget(dir + "/" + file, "")) == Some(|Sections| + k)
  {
    var file := if k == 0 then "members.html" else "results.html";
    var pathname := dir + "/" + file;
    CurrentPageIsFileName(dir, file);
    assert LookupTarget(pathname, "") == file;
    var links := NavLinks(pathname);
    assert file[0] == 'm' || file[0] == 'r';
    NoSectionLinkIs(pathname, file);
    if k == 1 {
      assert links[|Sections|].href[0] == 'm';
    }
    ActiveIndexIs(links, file, |Sections| + k);
  }

  /** The section names have pairwise different lengths, so they are distinct. */
  lemma SectionsDistinct(j: nat, k: nat)
    requires j < |Sections| && k < |Sections| && j != k
    ensures |Sections[j]| != |Sections[k]|
  {
  }

  /**
   * As written: on a page whose address does not contain "index.html" (the
   * site root "/"), the links carry "index.html#about" but the query looks for
   * "#about", so no link is marked.
   */
  lemma RootFragmentMarksNothing(k: nat)
    requires k < |Sections|
    ensures ActiveIndex(NavLinks("/"), LookupTarget("/", "#" + Sections[k])).None?
  {
    DirectoryIsIndex("");
    assert "" + "/" == "/";
    var links := NavLinks("/");
    var target := "#" + Sections[k];
    assert !Contains("/", IndexPage) by {
      assert !Contains("", IndexPage);
    }
    forall j | 0 <= j < |links| ensures links[j].href != target {
      assert links[j].href[0] != '#';
    }
  }

  /**
   * Corrected lookup: on the home page a fragment is looked up in the same
   * form the section links were built in.
   */
  function CorrectedTarget(pathname: string, hash: string): (t: string)
    ensures CurrentPage(pathname) == IndexPage && |hash| > 0 && hash[0] == '#' ==>
      t == SectionHref(pathname, hash[1..])
    ensures !(CurrentPage(pathname) == IndexPage && hash != "") ==> t == LookupTarget(pathname, hash)
  {
    var page := CurrentPage(pathname);
    if page == IndexPage && hash != "" then
      if Contains(pathname, IndexPage) then hash else IndexPage + hash
    else page
  }

  /** With the corrected lookup, the fragment of section `k` marks exactly the link of section `k`. */
  lemma FragmentMarksItsSection(pathname: string, k: nat)
    requires k < |Sections| && CurrentPage(pathname) == IndexPage
    ensures ActiveIndex(NavLinks(pathname), CorrectedTarget(pathname, "#" + Sections[k])) == Some(k)
  {
    var links := NavLinks(pathname);
    var target := CorrectedTarget(pathname, "#" + Sections[k]);
    assert links[k].href == target;
    forall j | 0 <= j < k ensures links[j].href != target {
      SectionsDistinct(j, k);
    }
    ActiveIndexIs(links, target, k);
  }

  // ---- The injected navigation bar ----

  const ActiveClass: string := "active-link"
  const Show: string := "show"

  /** The navigation bar after injection: the links, which carry `active-link`, and the menu's classes. */
  class Navbar {
    var links: seq<NavLink>
    var active: seq<bool>
    var menuClasses: set<string>

    ghost predicate Valid()
      reads this
    {
      |active| == |links|
      && forall i, j :: 0 <= i < j < |active| && active[i] ==> !active[j]
    }

    /**
     * `injectTemplates()` for a page at `pathname` and `hash`: at most one link,
     * the first whose `href` equals the program's lookup target, is marked.
     */
    constructor Inject(pathname: string, hash: string)
      ensures Valid()
      ensures links == NavLinks(pathname)
      ensures forall i :: 0 <= i < |active| ==>
        (active[i] <==> ActiveIndex(links, LookupTarget(pathname, hash)) == Some(i))
      ensures menuClasses == {"collapse", "navbar-collapse"}
    {
      var ls := NavLinks(pathname);
      var hit := ActiveIndex(ls, LookupTarget(pathname, hash));
      links := ls;
      active := seq(|ls|, i requires 0 <= i < |ls| => hit == Some(i));
      menuClasses := {"collapse", "navbar-collapse"};
    }

    /** The toggler's click handler: `classList.toggle("show")` on the menu. */
    method TogglerClick()
      modifies this
      ensures links == old(links) && active == old(active)
      ensures Show in menuClasses <==> Show !in old(menuClasses)
      ensures menuClasses - {Show} == old(menuClasses) - {Show}
    {
      if Show in menuClasses {
        menuClasses := menuClasses - {Show};
      } else {
        menuClasses := menuClasses + {Show};
      }
    }

    /** A nav link's click handler: the menu closes, whatever its state. */
    method LinkClick()
      modifies this
      ensures links == old(links) && active == old(active)
      ensures menuClasses == old(menuClasses) - {Show}
    {
      if Show in menuClasses {
        menuClasses := menuClasses - {Show};
      }
    }
  }

  /** Two toggles restore the menu; a link click after a toggle leaves it closed. */
  method ToggleTwiceThenClick(nav: Navbar)
    modifies nav
    ensures nav.menuClasses == old(nav.menuClasses) - {Show}
  {
    ghost var before := nav.menuClasses;
    nav.TogglerClick();
    nav.TogglerClick();
    assert forall x :: x in nav.menuClasses <==> x in before by {
      forall x ensures x in nav.menuClasses <==> x in before {
        if x != Show {
          assert x in nav.menuClasses <==> x in nav.menuClasses - {Show};
        }
      }
    }
    nav.LinkClick();
  }
}
