/** The Team section (src/components/Team.jsx): the team members, the
    category filter in front of the carousel, and the carousel hook
    instantiated with a card width of 320 and three cards per view. */
module Team {
  import opened Wrappers
  import opened Carousel

  /** A team member; the photo and the description only feed the card. */
  datatype Member = Member(id: int, name: string, role: string, category: string)

  /** The filter value that shows every member. */
  const AllCategory: string := "All"

  /** The filter buttons, in display order. */
  const Categories: seq<string> :=
    ["All", "Web Developers", "Graphic Designers", "Social Media Managers", "Data Analysts"]

  /** The members the section lists, in display order. */
  const TeamMembers: seq<Member> := [
    Member(1, "Courage OGBONNA", "Creative Director", "All"),
    Member(2, "Emmanuel ONI", "Product Designer Intern", "Graphic Designers"),
    Member(3, "Silver DAVIDSON", "Product Designer Intern", "Graphic Designers"),
    Member(4, "Esther ADEBAYO", "Product Manager", "Data Analysts")
  ]

  const TeamCardWidth: Width := 320
  const TeamCardsPerView: int := 3

  /** The filter's test: the active category is "All", or it is the member's. */
  predicate Shown(active: string, m: Member)
  {
    active == AllCategory || m.category == active
  }

  /** `teamMembers.filter(...)`: the members the active category shows. */
  function FilterMembers(members: seq<Member>, active: string): (shown: seq<Member>)
    ensures |shown| <= |members|
    ensures forall m :: m in shown ==> m in members && Shown(active, m)
  {
    if members == [] then []
    else (if Shown(active, members[0]) then [members[0]] else []) + FilterMembers(members[1..], active)
  }

  /** `sub` is `s` with some elements taken out, the rest in their order. */
  predicate IsSubsequence<T(==)>(sub: seq<T>, s: seq<T>)
    decreases |s|
  {
    if sub == [] then true
    else if s == [] then false
    else if sub[0] == s[0] then IsSubsequence(sub[1..], s[1..])
    else IsSubsequence(sub, s[1..])
  }

  /** With "All" active the filter keeps every member, in order. */
  lemma {:induction false} FilterAllKeepsEveryone(members: seq<Member>)
    ensures FilterMembers(members, AllCategory) == members
  {
    if members != [] {
      FilterAllKeepsEveryone(members[1..]);
      assert [members[0]] + members[1..] == members;
    }
  }

  /** The filter only drops members: what it shows keeps the original order. */
  lemma {:induction false} FilterIsSubsequence(members: seq<Member>, active: string)
    ensures IsSubsequence(FilterMembers(members, active), members)
  {
    if members != [] {
      var rest := FilterMembers(members[1..], active);
      FilterIsSubsequence(members[1..], active);
      if Shown(active, members[0]) {
        assert ([members[0]] + rest)[1..] == rest;
      } else {
        assert FilterMembers(members, active) == rest;
        assert rest == [] || rest[0] != members[0] by {
          if rest != [] {
            assert rest[0] in rest;
          }
        }
      }
    }
  }

  /** The filter keeps every occurrence of each member it shows and no
      occurrence of any other: together with the order above this fixes
      its result. */
  lemma {:induction false} FilterKeepsExactlyShown(members: seq<Member>, active: string)
    ensures forall m :: multiset(FilterMembers(members, active))[m]
                        == if Shown(active, m) then multiset(members)[m] else 0
  {
    if members != [] {
      FilterKeepsExactlyShown(members[1..], active);
      assert members == [members[0]] + members[1..];
      assert multiset(members) == multiset{members[0]} + multiset(members[1..]);
    }
  }

  /** "All" shows the whole team, including the member tagged "All". */
  lemma FilterTeamAll()
    ensures FilterMembers(TeamMembers, AllCategory) == TeamMembers
  {
    FilterAllKeepsEveryone(TeamMembers);
  }

  /** "Graphic Designers" shows the two interns, in order. */
  lemma FilterTeamGraphicDesigners()
    ensures FilterMembers(TeamMembers, "Graphic Designers") == [TeamMembers[1], TeamMembers[2]]
  {
    var t, c := TeamMembers, "Graphic Designers";
    FilterOnSuffixes(c);
    assert FilterMembers(t[3..], c) == [];
    assert FilterMembers(t[2..], c) == [t[2]];
    assert FilterMembers(t[1..], c) == [t[1], t[2]];
  }

  /** "Data Analysts" shows the product manager alone. */
  lemma FilterTeamDataAnalysts()
    ensures FilterMembers(TeamMembers, "Data Analysts") == [TeamMembers[3]]
  {
    var t, c := TeamMembers, "Data Analysts";
    FilterOnSuffixes(c);
    assert FilterMembers(t[3..], c) == [t[3]];
    assert FilterMembers(t[2..], c) == [t[3]];
    assert FilterMembers(t[1..], c) == [t[3]];
  }

  /** "Web Developers" shows nobody. */
  lemma FilterTeamWebDevelopers()
    ensures FilterMembers(TeamMembers, "Web Developers") == []
  {
    var t, c := TeamMembers, "Web Developers";
    FilterOnSuffixes(c);
    assert FilterMembers(t[3..], c) == [];
    assert FilterMembers(t[2..], c) == [];
    assert FilterMembers(t[1..], c) == [];
  }

  /** The filter on each suffix of the team, one member at a time. */
  lemma FilterOnSuffixes(active: string)
    requires active != AllCategory
    ensures FilterMembers(TeamMembers[3..], active)
            == if TeamMembers[3].category == active then [TeamMembers[3]] else []
    ensures FilterMembers(TeamMembers[2..], active)
            == (if TeamMembers[2].category == active then [TeamMembers[2]] else [])
               + FilterMembers(TeamMembers[3..], active)
    ensures FilterMembers(TeamMembers[1..], active)
            == (if TeamMembers[1].category == active then [TeamMembers[1]] else [])
               + FilterMembers(TeamMembers[2..], active)
    ensures FilterMembers(TeamMembers, active)
            == (if TeamMembers[0].category == active then [TeamMembers[0]] else [])
               + FilterMembers(TeamMembers[1..], active)
  {
    var t := TeamMembers;
    assert t[3..][1..] == [];
    assert t[2..][1..] == t[3..];
    assert t[1..][1..] == t[2..];
  }

  /** The section's state: the active category and the carousel hook, whose
      item count is that of the filtered list on every render. */
  class TeamSection {
    var activeCategory: string
    const carousel: CarouselState

    ghost predicate Valid()
      reads this, carousel
    {
      && carousel.itemsCount == |FilterMembers(TeamMembers, activeCategory)|
      && carousel.itemWidth == TeamCardWidth
      && carousel.itemsPerView == TeamCardsPerView
    }

    constructor (attached: bool)
      ensures Valid() && fresh(carousel)
      ensures activeCategory == AllCategory
      ensures carousel.currentIndex == 0 && carousel.attached == attached
    {
      activeCategory := AllCategory;
      carousel := new CarouselState(|FilterMembers(TeamMembers, AllCategory)|, TeamCardWidth, TeamCardsPerView, attached);
    }

    /** `filteredMembers`: the members the active category shows, everyone
        under "All"; under `Valid()` the carousel counts exactly these. */
    function FilteredMembers(): (shown: seq<Member>)
      reads this, carousel
      ensures forall m :: m in shown ==> m in TeamMembers && Shown(activeCategory, m)
      ensures activeCategory == AllCategory ==> shown == TeamMembers
      ensures Valid() ==> |shown| == carousel.itemsCount
    {
      FilterAllKeepsEveryone(TeamMembers);
      FilterMembers(TeamMembers, activeCategory)
    }

    /** A category button (`setActiveCategory`): the list and the carousel's
        item count follow; `currentIndex` is NOT reset. */
    method SelectCategory(category: string)
      requires Valid()
      modifies this`activeCategory, carousel`itemsCount
      ensures Valid()
      ensures activeCategory == category
      ensures carousel.currentIndex == old(carousel.currentIndex)
    {
      activeCategory := category;
      carousel.SetItemsCount(|FilterMembers(TeamMembers, category)|);
    }

    /** The desktop "previous" button's `disabled`: set exactly where
        `scrollLeft` would leave the index unchanged. */
    predicate DesktopPrevDisabled()
      reads this, carousel
      ensures DesktopPrevDisabled() <==> StepLeft(carousel.currentIndex) == carousel.currentIndex
    {
      PrevDisabled(carousel.currentIndex)
    }

    /** The desktop "next" button's `disabled` (`totalItems` is the filtered
        count): at a non-negative index, set exactly where the hook's
        `scrollRight` would not advance. */
    predicate DesktopNextDisabled()
      reads this, carousel
      ensures Valid() && 0 <= carousel.currentIndex ==>
        (DesktopNextDisabled()
         <==> StepRight(carousel.currentIndex, MaxIndex(carousel.itemsCount, carousel.itemsPerView)) <= carousel.currentIndex)
    {
      NextDisabled(carousel.currentIndex, |FilteredMembers()|, TeamCardsPerView)
    }

    /** The mobile "next" button's `disabled`: while the index names a
        shown member, set exactly when the last dot is lit. */
    predicate MobileNextButtonDisabled()
      reads this, carousel
      ensures 0 <= carousel.currentIndex < |FilteredMembers()| ==>
        (MobileNextButtonDisabled() <==> MobileDots()[|FilteredMembers()| - 1])
    {
      MobileNextDisabled(carousel.currentIndex, |FilteredMembers()|)
    }

    /** The mobile dot row: one dot per shown member, exactly one of them
        lit while the index names a shown member and none otherwise. */
    function MobileDots(): (dots: seq<bool>)
      reads this, carousel
      ensures |dots| == |FilteredMembers()|
      ensures forall k :: 0 <= k < |dots| ==> dots[k] == (k == carousel.currentIndex)
      ensures CountLit(dots) == if 0 <= carousel.currentIndex < |dots| then 1 else 0
    {
      LitDotCount(|FilteredMembers()|, carousel.currentIndex);
      Dots(|FilteredMembers()|, carousel.currentIndex)
    }
  }

  /** With all four members shown, "next" reaches index 1 (the last one);
      switching to "Graphic Designers" (two members, so `maxIndex` 0)
      leaves the index at 1, "previous" enabled and "next" disabled. */
  method CategoryChangeKeepsIndex() returns (index: int, maxIndex: nat, prevDisabled: bool, nextDisabled: bool)
    ensures index == 1 && maxIndex == 0
    ensures !prevDisabled && nextDisabled
  {
    FilterTeamAll();
    FilterTeamGraphicDesigners();
    var team := new TeamSection(true);
    var target := team.carousel.ScrollRight();
    team.SelectCategory("Graphic Designers");
    index := team.carousel.currentIndex;
    maxIndex := MaxIndex(team.carousel.itemsCount, team.carousel.itemsPerView);
    prevDisabled := team.DesktopPrevDisabled();
    nextDisabled := team.DesktopNextDisabled();
  }
}
