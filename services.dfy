/** The services page (src/pages/Services.tsx): category tabs over a fixed table, of
    which the one whose slug is active is highlighted and rendered. */
module Services {
  import opened Seqs

  datatype Service = Service(name: string, desc: string)

  datatype Category = Category(slug: string, title: string, services: seq<Service>)

  const CATEGORIES: seq<Category> := [
    Category("geophysics", "Геофизика", [
      Service("Сейсморазведка 2D / 3D / 4D",
              "Полный комплекс полевых работ и интерпретация. Оптимизация бурения и оценка структур."),
      Service("Магниторазведка", "Низкоточная и высокоточная съёмка с наземных и воздушных платформ."),
      Service("Электроразведка (ВЭЗ, IP)", "Зондирование до 1,5 км со сверхнизким уровнем шума.")
    ]),
    Category("geology", "Геология", [
      Service("Картирование и опробование", "Определение литотипа, коры выветривания и QA/QC-контроль."),
      Service("Керновой отбор", "Удалённый ВОМ-зонд для непрерывного каротажа и описания керна.")
    ]),
    Category("modelling", "3-D модели и отчёты", [
      Service("Интеграция данных", "Сводная модель Micromine — Leapfrog с веб-доступом."),
      Service("Отчёты GKZ / JORC / PERC", "Полная документация, готовая к защите в госкомиссиях и банках.")
    ])
  ]

  /** `active` names one of the table's categories. */
  predicate IsSlug(s: string)
  {
    exists i :: 0 <= i < |CATEGORIES| && CATEGORIES[i].slug == s
  }

  function BySlug(active: string): Category -> bool
  {
    (c: Category) => c.slug == active
  }

  /** The categories rendered below the tabs: those whose slug equals `active`. */
  function Shown(active: string): (r: seq<Category>)
    ensures forall c :: c in r ==> c in CATEGORIES && c.slug == active
    ensures forall c :: c in CATEGORIES && c.slug == active ==> c in r
  {
    Filter(CATEGORIES, BySlug(active))
  }

  /** The slugs are pairwise distinct. */
  lemma SlugsDistinct()
    ensures forall i, j :: 0 <= i < j < |CATEGORIES| ==> CATEGORIES[i].slug != CATEGORIES[j].slug
  {
  }

  /** Selecting the i-th tab renders the i-th category and nothing else. */
  lemma ShownIsTab(i: nat)
    requires i < |CATEGORIES|
    ensures Shown(CATEGORIES[i].slug) == [CATEGORIES[i]]
  {
    SlugsDistinct();
    FilterSingle(CATEGORIES, BySlug(CATEGORIES[i].slug), i);
  }

  /** Whatever tab is selected, exactly one category is rendered. */
  lemma ShownIsOne(active: string)
    requires IsSlug(active)
    ensures |Shown(active)| == 1
  {
    var i :| 0 <= i < |CATEGORIES| && CATEGORIES[i].slug == active;
    ShownIsTab(i);
  }

  /** A tab is highlighted when its slug equals `active`: when that is the i-th slug, the
      i-th tab is the only highlighted one. */
  lemma OneTabHighlighted(i: nat)
    requires i < |CATEGORIES|
    ensures forall j :: 0 <= j < |CATEGORIES| ==> (CATEGORIES[j].slug == CATEGORIES[i].slug <==> j == i)
  {
    SlugsDistinct();
  }

  /** The page's React state. */
  class ServicesPage {
    var active: string

    predicate Valid()
      reads this
    {
      IsSlug(active)
    }

    /** The first category's tab starts selected. */
    constructor ()
      ensures Valid() && active == "geophysics"
    {
      active := CATEGORIES[0].slug;
    }

    /** A click on the tab of category `cat`. */
    method ClickTab(cat: Category)
      requires cat in CATEGORIES
      modifies this
      ensures Valid() && active == cat.slug
    {
      active := cat.slug;
    }
  }
}
