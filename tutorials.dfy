/** The tutorials screen: the fixed catalogue, the category filter, the three
    age tabs, the favourites set and the category icon lookup. */
module Tutorials {
  import opened Common

  /** The five tutorial categories and the three age groups; each is one of
      the category ids or `ageGroup` values the tutorials are written with. */
  datatype TopicCategory = Alimentacao | Higiene | Comportamento | Vacinacao | PrimeirosSocorros
  datatype AgeGroup = Filhote | Adulto | Idoso

  /** The category buttons select 'all' or one category's id. */
  datatype CategoryFilter = AllCategories | OnlyCategory(category: TopicCategory)

  /** The catalogue fields the screen's logic looks at; thumbnails and the
      descriptive text (description, steps, tips) are not modelled. */
  datatype Tutorial = Tutorial(id: string, title: string, category: TopicCategory, ageGroup: AgeGroup)

  const Catalogue: seq<Tutorial> := [
    Tutorial("1", "Alimentação para Filhotes", Alimentacao, Filhote),
    Tutorial("2", "Introdução de Alimentos Sólidos", Alimentacao, Filhote),
    Tutorial("3", "Banho e Higiene Básica", Higiene, Filhote),
    Tutorial("4", "Cuidados com Dentes e Unhas", Higiene, Filhote),
    Tutorial("5", "Socialização de Filhotes", Comportamento, Filhote),
    Tutorial("6", "Ensino de Necessidades no Local Correto", Comportamento, Filhote),
    Tutorial("7", "Calendário de Vacinação", Vacinacao, Filhote),
    Tutorial("8", "Alimentação Balanceada para Adultos", Alimentacao, Adulto),
    Tutorial("9", "Controle de Peso e Obesidade", Alimentacao, Adulto),
    Tutorial("10", "Rotina de Higiene para Adultos", Higiene, Adulto),
    Tutorial("11", "Enriquecimento Ambiental", Comportamento, Adulto),
    Tutorial("12", "Primeiros Socorros Básicos", PrimeirosSocorros, Adulto),
    Tutorial("13", "Intoxicação e Envenenamento", PrimeirosSocorros, Adulto),
    Tutorial("14", "Alimentação para Pets Idosos", Alimentacao, Idoso),
    Tutorial("15", "Cuidados com Articulações", PrimeirosSocorros, Idoso),
    Tutorial("16", "Higiene Especial para Idosos", Higiene, Idoso)
  ]

  // ---------------------------------------------------------------------
  // Category filter and age tabs

  function InCategory(f: CategoryFilter): Tutorial -> bool {
    (t: Tutorial) => f.AllCategories? || t.category == f.category
  }

  /** `filteredTutorials`. */
  function FilteredTutorials(ts: seq<Tutorial>, f: CategoryFilter): (r: seq<Tutorial>)
    ensures forall t :: t in r <==> t in ts && (f.AllCategories? || t.category == f.category)
  {
    Filter(ts, InCategory(f))
  }

  /** 'all' shows the whole list in its order; any other category keeps the
      order of what it keeps. */
  lemma CategoryFilterKeepsOrder(ts: seq<Tutorial>, us: seq<Tutorial>, f: CategoryFilter)
    ensures FilteredTutorials(ts, AllCategories) == ts
    ensures FilteredTutorials(ts + us, f) == FilteredTutorials(ts, f) + FilteredTutorials(us, f)
  {
    FilterKeepsAll(ts, InCategory(AllCategories));
    FilterConcat(ts, us, InCategory(f));
  }

  function InAgeGroup(g: AgeGroup): Tutorial -> bool {
    (t: Tutorial) => t.ageGroup == g
  }

  /** One age tab: the category-filtered tutorials of that age group. */
  function AgeTab(ts: seq<Tutorial>, f: CategoryFilter, g: AgeGroup): (r: seq<Tutorial>)
    ensures forall t :: t in r <==> t in ts && (f.AllCategories? || t.category == f.category) && t.ageGroup == g
  {
    Filter(FilteredTutorials(ts, f), InAgeGroup(g))
  }

  function InTab(f: CategoryFilter, g: AgeGroup): Tutorial -> bool {
    (t: Tutorial) => (f.AllCategories? || t.category == f.category) && t.ageGroup == g
  }

  /** A tab is the single filter of the whole list by its category and its
      age group, in the list's order. */
  lemma AgeTabIsOneFilter(ts: seq<Tutorial>, f: CategoryFilter, g: AgeGroup)
    ensures AgeTab(ts, f, g) == Filter(ts, InTab(f, g))
  {
    FilterFilter(ts, InCategory(f), InAgeGroup(g), InTab(f, g));
  }

  /** The three tabs between them list every filtered tutorial exactly
      once. */
  lemma {:induction false} TabsPartition(ts: seq<Tutorial>)
    ensures |Filter(ts, InAgeGroup(Filhote))| + |Filter(ts, InAgeGroup(Adulto))| + |Filter(ts, InAgeGroup(Idoso))| == |ts|
  {
    if ts != [] {
      TabsPartition(ts[1..]);
    }
  }

  /** The partition for any list under any category filter. */
  lemma TabsCoverFiltered(ts: seq<Tutorial>, f: CategoryFilter)
    ensures |AgeTab(ts, f, Filhote)| + |AgeTab(ts, f, Adulto)| + |AgeTab(ts, f, Idoso)| == |FilteredTutorials(ts, f)|
  {
    TabsPartition(FilteredTutorials(ts, f));
  }

  lemma FilterConcat3(a: seq<Tutorial>, b: seq<Tutorial>, c: seq<Tutorial>, p: Tutorial -> bool)
    ensures Filter(a + b + c, p) == Filter(a, p) + Filter(b, p) + Filter(c, p)
  {
    FilterConcat(a + b, c, p);
    FilterConcat(a, b, p);
  }

  /** A tab keeps all or nothing of a block of one age group. */
  lemma BlockTab(s: seq<Tutorial>, h: AgeGroup, g: AgeGroup)
    requires forall i :: 0 <= i < |s| ==> s[i].ageGroup == h
    ensures Filter(s, InAgeGroup(g)) == if h == g then s else []
  {
    if h == g {
      FilterKeepsAll(s, InAgeGroup(g));
    } else {
      FilterDropsAll(s, InAgeGroup(g));
    }
  }

  /** The catalogue lists the seven puppy tutorials, then the six adult ones,
      then the three senior ones. */
  lemma CatalogueBlocks()
    ensures Catalogue == Catalogue[..7] + Catalogue[7..13] + Catalogue[13..]
    ensures forall i :: 0 <= i < 7 ==> Catalogue[..7][i].ageGroup == Filhote
    ensures forall i :: 0 <= i < 6 ==> Catalogue[7..13][i].ageGroup == Adulto
    ensures forall i :: 0 <= i < 3 ==> Catalogue[13..][i].ageGroup == Idoso
  {
  }

  /** Three consecutive blocks of puppy, adult and senior tutorials split
      into the three tabs block by block; with 'all' selected this is how the
      catalogue (see `CatalogueBlocks`) is shown. */
  lemma TabOfBlocks(puppy: seq<Tutorial>, adult: seq<Tutorial>, senior: seq<Tutorial>)
    requires forall i :: 0 <= i < |puppy| ==> puppy[i].ageGroup == Filhote
    requires forall i :: 0 <= i < |adult| ==> adult[i].ageGroup == Adulto
    requires forall i :: 0 <= i < |senior| ==> senior[i].ageGroup == Idoso
    ensures Filter(puppy + adult + senior, InAgeGroup(Filhote)) == puppy
    ensures Filter(puppy + adult + senior, InAgeGroup(Adulto)) == adult
    ensures Filter(puppy + adult + senior, InAgeGroup(Idoso)) == senior
  {
    forall g: AgeGroup
      ensures Filter(puppy + adult + senior, InAgeGroup(g)) ==
        (if g == Filhote then puppy else []) + (if g == Adulto then adult else []) + (if g == Idoso then senior else [])
    {
      FilterConcat3(puppy, adult, senior, InAgeGroup(g));
      BlockTab(puppy, Filhote, g);
      BlockTab(adult, Adulto, g);
      BlockTab(senior, Idoso, g);
    }
    assert puppy + [] + [] == puppy;
    assert [] + adult + [] == adult;
    assert [] + [] + senior == senior;
  }

  /** Every tutorial has a distinct id. */
  lemma CatalogueIdsDistinct()
    ensures forall i, j :: 0 <= i < j < |Catalogue| ==> Catalogue[i].id != Catalogue[j].id
  {
  }

  // ---------------------------------------------------------------------
  // Category icons

  datatype Icon = HeartIcon | UtensilsIcon | DropletsIcon | UsersIcon | SyringeIcon | HelpCircleIcon

  /** An entry of the `categories` list: the id its button selects, its
      label and its icon. */
  datatype CategoryEntry = CategoryEntry(id: string, name: string, icon: Icon)

  const Categories: seq<CategoryEntry> := [
    CategoryEntry("all", "Todos", HeartIcon),
    CategoryEntry("alimentacao", "Alimentação", UtensilsIcon),
    CategoryEntry("higiene", "Higiene", DropletsIcon),
    CategoryEntry("comportamento", "Comportamento", UsersIcon),
    CategoryEntry("vacinacao", "Vacinação", SyringeIcon),
    CategoryEntry("primeiros-socorros", "Primeiros Socorros", HelpCircleIcon)
  ]

  /** The id a tutorial's category is written with. */
  function CategoryId(c: TopicCategory): string {
    match c
    case Alimentacao => "alimentacao"
    case Higiene => "higiene"
    case Comportamento => "comportamento"
    case Vacinacao => "vacinacao"
    case PrimeirosSocorros => "primeiros-socorros"
  }

  /** The category ids are distinct. */
  lemma CategoryIdsDistinct()
    ensures forall i, j :: 0 <= i < j < |Categories| ==> Categories[i].id != Categories[j].id
  {
  }

  /** `categories.find(cat => cat.id === id)`: the first entry with the id,
      if any. */
  function FindCategory(cs: seq<CategoryEntry>, id: string): (r: Option<CategoryEntry>)
    ensures r.None? <==> forall i :: 0 <= i < |cs| ==> cs[i].id != id
    ensures r.Some? ==> r.value in cs && r.value.id == id
  {
    if cs == [] then None
    else if cs[0].id == id then Some(cs[0])
    else FindCategory(cs[1..], id)
  }

  /** `getCategoryIcon`: the icon of the entry with the id, or the heart
      when no entry has it. */
  function CategoryIcon(id: string): (icon: Icon)
    ensures (forall i :: 0 <= i < |Categories| ==> Categories[i].id != id) ==> icon == HeartIcon
    ensures forall i :: 0 <= i < |Categories| && Categories[i].id == id ==> icon == Categories[i].icon
  {
    CategoryIdsDistinct();
    var e := FindCategory(Categories, id);
    if e.Some? then e.value.icon else HeartIcon
  }

  /** Where each category's entry sits in `Categories`: after the 'all'
      entry. */
  function CategoryIndex(c: TopicCategory): (k: nat)
    ensures 1 <= k < |Categories| && Categories[k].id == CategoryId(c)
  {
    match c
    case Alimentacao => 1
    case Higiene => 2
    case Comportamento => 3
    case Vacinacao => 4
    case PrimeirosSocorros => 5
  }

  /** Every tutorial category has its own entry, so a tutorial never gets the
      fallback heart. */
  lemma TutorialIcon(c: TopicCategory)
    ensures CategoryIcon(CategoryId(c)) == Categories[CategoryIndex(c)].icon != HeartIcon
  {
  }

  /** No two tutorial categories share an icon. */
  lemma TutorialIconsDistinct(c: TopicCategory, d: TopicCategory)
    requires c != d
    ensures CategoryIcon(CategoryId(c)) != CategoryIcon(CategoryId(d))
  {
    TutorialIcon(c);
    TutorialIcon(d);
  }

  // ---------------------------------------------------------------------
  // Screen state

  class TutorialsScreen {
    var selectedCategory: CategoryFilter
    var selectedTutorial: Option<Tutorial>
    var favorites: set<string>

    constructor ()
      ensures selectedCategory == AllCategories && selectedTutorial.None? && favorites == {}
    {
      selectedCategory := AllCategories;
      selectedTutorial := None;
      favorites := {};
    }

    method SelectCategory(f: CategoryFilter)
      modifies this
      ensures selectedCategory == f && selectedTutorial == old(selectedTutorial) && favorites == old(favorites)
    {
      selectedCategory := f;
    }

    method OpenTutorial(t: Tutorial)
      modifies this
      ensures selectedTutorial == Some(t) && selectedCategory == old(selectedCategory) && favorites == old(favorites)
    {
      selectedTutorial := Some(t);
    }

    method CloseTutorial()
      modifies this
      ensures selectedTutorial.None? && selectedCategory == old(selectedCategory) && favorites == old(favorites)
    {
      selectedTutorial := None;
    }

    /** `toggleFavorite`: flips one id's membership and nothing else. */
    method ToggleFavorite(id: string)
      modifies this
      ensures favorites == ToggleMember(old(favorites), id)
      ensures selectedCategory == old(selectedCategory) && selectedTutorial == old(selectedTutorial)
    {
      favorites := ToggleMember(favorites, id);
    }

    /** The tab the screen lists for age group `g`: the one-pass filter of
        the catalogue by the selected category and `g`. */
    method Tab(g: AgeGroup) returns (r: seq<Tutorial>)
      ensures r == Filter(Catalogue, InTab(selectedCategory, g))
    {
      r := AgeTab(Catalogue, selectedCategory, g);
      AgeTabIsOneFilter(Catalogue, selectedCategory, g);
    }
  }
}
