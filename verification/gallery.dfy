/** The project gallery of the portfolio page: the static project list, the
    modal viewer's selection slot with wrap-around navigation and keyboard
    shortcuts, and the link classifier of the service cards. */
module Gallery {
  import opened Common

  /** A portfolio entry. The image URL, the long description and the optional
      security note are display-only and are not part of the model. */
  datatype Project = Project(
    id: string,
    title: string,
    techStack: string,
    tags: seq<string>,
    year: string,
    link: Option<string>)

  /** The six projects shown in the gallery, in display order. */
  function Projects(): (ps: seq<Project>)
    ensures |ps| == 6
  {
    [ Project("1", "PC26 (Paper Cricket)", "JS • LocalStorage • Game Logic",
              ["Game Dev", "Top Project", "400+ Users"], "2024", Some("https://pcwc.vercel.app/")),
      Project("2", "Forca OS", "HTML • CSS • JS",
              ["Web OS", "Simulation"], "2024", Some("https://vercel.com/vesnis-projects")),
      Project("3", "Security Lab", "Python • Burp Suite • Nmap",
              ["Security", "Ethical Hacking"], "2025", Some("https://github.com/Vesni")),
      Project("4", "FB26 Tracker", "PHP • SQL • Analytics",
              ["Sports Tech", "Full Stack"], "2024", Some("https://github.com/Vesni")),
      Project("5", "Discord Tools", "Node.js • API",
              ["Bot Dev", "Automation"], "2023", None),
      Project("6", "Music Editor", "Audio Engineering",
              ["Creative", "Audio"], "2023", Some("https://soundcloud.com/vesni-lanus")) ]
  }

  /** No two entries of the list share an id, so looking a project up by id
      finds that very project. */
  predicate DistinctIds(ps: seq<Project>)
  {
    forall j, k :: 0 <= j < k < |ps| ==> ps[j].id != ps[k].id
  }

  lemma ProjectIdsDistinct()
    ensures DistinctIds(Projects())
    ensures forall k :: 0 <= k < |Projects()| ==> Projects()[k].id == [('1' as int + k) as char]
  {
  }

  /** `ps.findIndex(p => p.id === id)`: the first index whose id matches, or -1. */
  function FindIndex(ps: seq<Project>, id: string): (r: int)
    ensures -1 <= r < |ps|
    ensures r >= 0 ==> ps[r].id == id
  {
    if ps == [] then -1
    else if ps[0].id == id then 0
    else
      var r := FindIndex(ps[1..], id);
      if r == -1 then -1 else r + 1
  }

  /** An entry carrying the id is found, at its own index or an earlier one;
      so -1 means that no entry carries the id. */
  lemma {:induction false} FindIndexFinds(ps: seq<Project>, id: string, i: nat)
    requires i < |ps| && ps[i].id == id
    ensures 0 <= FindIndex(ps, id) <= i
  {
    if ps[0].id != id {
      FindIndexFinds(ps[1..], id, i - 1);
    }
  }

  /** With distinct ids, looking up the id of entry `i` yields exactly `i`. */
  lemma FindIndexExact(ps: seq<Project>, i: nat)
    requires DistinctIds(ps)
    requires i < |ps|
    ensures FindIndex(ps, ps[i].id) == i
  {
    FindIndexFinds(ps, ps[i].id, i);
  }

  datatype Direction = Next | Prev

  /** The index `navigateProject` moves to from index `i` (which is -1 when
      the id was not found), computed with JavaScript's `%`. It is a valid
      index of a non-empty list in every case. */
  function StepIndex(i: int, n: int, dir: Direction): (j: int)
    requires n > 0 && -1 <= i < n
    ensures 0 <= j < n
  {
    match dir
    case Next => JsRem(i + 1, n)
    case Prev => JsRem(i - 1 + n, n)
  }

  /** From a valid index both directions move by one, wrapping around at the
      ends. */
  lemma StepIndexWraps(i: int, n: int)
    requires 0 <= i < n
    ensures StepIndex(i, n, Next) == if i == n - 1 then 0 else i + 1
    ensures StepIndex(i, n, Prev) == if i == 0 then n - 1 else i - 1
  {
  }

  /** `navigateProject(dir)` as a function of the current selection: nothing
      selected stays so; otherwise the selected project's index is looked up
      by id and the entry at the stepped index is selected. Indexing an empty
      list yields `undefined`, which reads as no selection. */
  function Navigate(ps: seq<Project>, sel: Option<Project>, dir: Direction): (r: Option<Project>)
    ensures sel.None? || ps == [] <==> r.None?
    ensures r.Some? ==> r.value in ps
  {
    match sel
    case None => None
    case Some(p) =>
      if ps == [] then None
      else Some(ps[StepIndex(FindIndex(ps, p.id), |ps|, dir)])
  }

  /** Navigating from entry `i` selects its neighbour, wrapping at both ends. */
  lemma NavigateAt(ps: seq<Project>, i: nat, dir: Direction)
    requires DistinctIds(ps)
    requires i < |ps|
    ensures dir == Next ==> Navigate(ps, Some(ps[i]), dir) == Some(ps[if i == |ps| - 1 then 0 else i + 1])
    ensures dir == Prev ==> Navigate(ps, Some(ps[i]), dir) == Some(ps[if i == 0 then |ps| - 1 else i - 1])
  {
    FindIndexExact(ps, i);
    StepIndexWraps(i, |ps|);
  }

  /** A selected project whose id is not in the list (`findIndex` gives -1):
      `next` selects the first entry and, with two entries or more, `prev`
      selects the second to last, because `(-1 - 1 + n) % n` is `n - 2`. */
  lemma NavigateFromUnknown(ps: seq<Project>, p: Project)
    requires ps != [] && forall k :: 0 <= k < |ps| ==> ps[k].id != p.id
    ensures Navigate(ps, Some(p), Next) == Some(ps[0])
    ensures |ps| >= 2 ==> Navigate(ps, Some(p), Prev) == Some(ps[|ps| - 2])
  {
    assert FindIndex(ps, p.id) == -1;
  }

  /** `next` and `prev` undo each other. */
  lemma NextPrevInverse(ps: seq<Project>, i: nat)
    requires DistinctIds(ps)
    requires i < |ps|
    ensures Navigate(ps, Navigate(ps, Some(ps[i]), Next), Prev) == Some(ps[i])
    ensures Navigate(ps, Navigate(ps, Some(ps[i]), Prev), Next) == Some(ps[i])
  {
    var n := if i == |ps| - 1 then 0 else i + 1;
    var p := if i == 0 then |ps| - 1 else i - 1;
    calc {
      Navigate(ps, Navigate(ps, Some(ps[i]), Next), Prev);
    == { NavigateAt(ps, i, Next); }
      Navigate(ps, Some(ps[n]), Prev);
    == { NavigateAt(ps, n, Prev); }
      Some(ps[i]);
    }
    calc {
      Navigate(ps, Navigate(ps, Some(ps[i]), Prev), Next);
    == { NavigateAt(ps, i, Prev); }
      Navigate(ps, Some(ps[p]), Next);
    == { NavigateAt(ps, p, Next); }
      Some(ps[i]);
    }
  }

  /** One press of `next`, as a function of the selection. */
  function NextStep(ps: seq<Project>): Option<Project> -> Option<Project>
  {
    sel => Navigate(ps, sel, Next)
  }

  /** `next` pressed `k` times. */
  function NextTimes(ps: seq<Project>, sel: Option<Project>, k: nat): Option<Project>
  {
    Iterate(NextStep(ps), sel, k)
  }

  /** Before the end of the list is reached, `k` presses of `next` from entry
      `i` select entry `i + k`. */
  lemma {:induction false} NextTimesForward(ps: seq<Project>, i: nat, k: nat, j: nat)
    requires DistinctIds(ps)
    requires j == i + k < |ps|
    ensures NextTimes(ps, Some(ps[i]), k) == Some(ps[j])
  {
    if k > 0 {
      NextTimesForward(ps, i, k - 1, j - 1);
      NavigateAt(ps, j - 1, Next);
    }
  }

  /** Pressing `next` `a` times and then `b` times is pressing it `a + b` times. */
  lemma NextTimesSplit(ps: seq<Project>, sel: Option<Project>, a: nat, b: nat, c: nat)
    requires c == a + b
    ensures NextTimes(ps, sel, c) == NextTimes(ps, NextTimes(ps, sel, a), b)
  {
    IterateAdd(NextStep(ps), sel, a, b, c);
  }

  /** Going `next` once per entry comes back to where it started: from entry
      `i` the presses walk to the last entry, wrap to the first, and walk on
      to `i` again. */
  lemma NextPeriod(ps: seq<Project>, i: nat)
    requires DistinctIds(ps)
    requires i < |ps|
    ensures NextTimes(ps, Some(ps[i]), |ps|) == Some(ps[i])
  {
    var n := |ps|;
    var start, last, first := Some(ps[i]), Some(ps[n - 1]), Some(ps[0]);
    calc {
      NextTimes(ps, start, n);
    == { NextTimesSplit(ps, start, n - 1 - i, 1 + i, n); }
      NextTimes(ps, NextTimes(ps, start, n - 1 - i), 1 + i);
    == { NextTimesForward(ps, i, n - 1 - i, n - 1); }
      NextTimes(ps, last, 1 + i);
    == { NextTimesSplit(ps, last, 1, i, 1 + i); }
      NextTimes(ps, NextTimes(ps, last, 1), i);
    == { NextTimesWrap(ps); }
      NextTimes(ps, first, i);
    == { NextTimesForward(ps, 0, i, i); }
      start;
    }
  }

  /** One press of `next` on the last entry selects the first. */
  lemma NextTimesWrap(ps: seq<Project>)
    requires DistinctIds(ps)
    requires |ps| > 0
    ensures NextTimes(ps, Some(ps[|ps| - 1]), 1) == Some(ps[0])
  {
    NavigateAt(ps, |ps| - 1, Next);
  }

  /** The modal's keydown handler: with nothing selected every key is
      ignored; ArrowLeft goes back, ArrowRight forward, Escape closes, and
      any other key is ignored. */
  function KeyDown(ps: seq<Project>, sel: Option<Project>, key: string): (r: Option<Project>)
    ensures sel.None? ==> r.None?
    ensures (sel.Some? ==> sel.value in ps) ==> (r.Some? ==> r.value in ps)
  {
    if sel.None? then sel
    else if key == "ArrowLeft" then Navigate(ps, sel, Prev)
    else if key == "ArrowRight" then Navigate(ps, sel, Next)
    else if key == "Escape" then None
    else sel
  }

  /** The key handler's effect on a selected entry `i`, key by key, and the
      two arrow keys undoing each other. */
  lemma KeyDownEffect(ps: seq<Project>, i: nat, key: string)
    requires DistinctIds(ps)
    requires i < |ps|
    ensures key !in {"ArrowLeft", "ArrowRight", "Escape"} ==> KeyDown(ps, Some(ps[i]), key) == Some(ps[i])
    ensures KeyDown(ps, Some(ps[i]), "Escape") == None
    ensures KeyDown(ps, Some(ps[i]), "ArrowRight") == Some(ps[if i == |ps| - 1 then 0 else i + 1])
    ensures KeyDown(ps, Some(ps[i]), "ArrowLeft") == Some(ps[if i == 0 then |ps| - 1 else i - 1])
    ensures KeyDown(ps, KeyDown(ps, Some(ps[i]), "ArrowRight"), "ArrowLeft") == Some(ps[i])
    ensures KeyDown(ps, KeyDown(ps, Some(ps[i]), "ArrowLeft"), "ArrowRight") == Some(ps[i])
  {
    NavigateAt(ps, i, Next);
    NavigateAt(ps, i, Prev);
    NextPrevInverse(ps, i);
  }

  /** The `href` of a service card: absolute (`http…`) and `mailto…` links are
      used as they are, anything else becomes an in-page anchor. */
  predicate IsExternal(link: string)
  {
    StartsWith(link, "http") || StartsWith(link, "mailto")
  }

  function Href(link: string): (h: string)
    ensures IsExternal(link) ==> h == link
    ensures !IsExternal(link) ==> h == "#" + link && h != link
  {
    if IsExternal(link) then link else "#" + link
  }

  /** What a click on a service card's button does. */
  datatype CardClick = FollowHref(href: string) | ScrollToSection(section: string)

  function ClickCard(link: string): (c: CardClick)
    ensures c.ScrollToSection? <==> Href(link) != link
    ensures c.ScrollToSection? ==> c.section == link && Href(link) == "#" + c.section
    ensures c.FollowHref? ==> c.href == link
  {
    if !StartsWith(link, "http") && !StartsWith(link, "mailto") then ScrollToSection(link)
    else FollowHref(Href(link))
  }

  const MailtoScheme := "mailto:"

  /** The three service cards' links, in display order. */
  const ServiceCardLinks: seq<string> := [
    "projects",
    MailtoScheme + "vesni277@gmail.com?subject=Security%20Audit",
    MailtoScheme + "vesni277@gmail.com?subject=Collaboration"
  ]

  /** Only the first card scrolls within the page; the other two open mail. */
  lemma ServiceCardsClassified()
    ensures ClickCard(ServiceCardLinks[0]) == ScrollToSection("projects")
    ensures Href(ServiceCardLinks[0]) == "#projects"
    ensures forall k :: 1 <= k < |ServiceCardLinks| ==> ClickCard(ServiceCardLinks[k]) == FollowHref(ServiceCardLinks[k])
  {
    assert ServiceCardLinks[0][0] == 'p';
    StartsWithAppend(MailtoScheme, "vesni277@gmail.com?subject=Security%20Audit", "mailto");
    StartsWithAppend(MailtoScheme, "vesni277@gmail.com?subject=Collaboration", "mailto");
  }

  /** The selection slot of the project modal (`selectedProject`). */
  class ProjectModal {
    var selected: Option<Project>

    ghost predicate Valid()
      reads this
    {
      selected.Some? ==> selected.value in Projects()
    }

    constructor ()
      ensures Valid() && selected == None
    {
      selected := None;
    }

    /** A click on a gallery card opens that card's project. */
    method OpenCard(p: Project)
      requires Valid() && p in Projects()
      modifies this
      ensures Valid() && selected == Some(p)
    {
      selected := Some(p);
    }

    /** The backdrop and the close button clear the selection. */
    method Close()
      requires Valid()
      modifies this
      ensures Valid() && selected == None
    {
      selected := None;
    }

    method NavigateProject(dir: Direction)
      requires Valid()
      modifies this
      ensures Valid() && selected == Navigate(Projects(), old(selected), dir)
      ensures old(selected).Some? ==> selected.Some?
    {
      if selected.None? {
        return;
      }
      var ps := Projects();
      var currentIndex := FindIndex(ps, selected.value.id);
      var nextIndex;
      if dir == Next {
        nextIndex := JsRem(currentIndex + 1, |ps|);
      } else {
        nextIndex := JsRem(currentIndex - 1 + |ps|, |ps|);
      }
      selected := Some(ps[nextIndex]);
    }

    method HandleKeyDown(key: string)
      requires Valid()
      modifies this
      ensures Valid() && selected == KeyDown(Projects(), old(selected), key)
    {
      if selected.None? {
        return;
      }
      if key == "ArrowLeft" {
        NavigateProject(Prev);
      }
      if key == "ArrowRight" {
        NavigateProject(Next);
      }
      if key == "Escape" {
        selected := None;
      }
    }
  }
}
