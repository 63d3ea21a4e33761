/** The careers page (src/pages/Careers.tsx): the vacancy filter, the card click
    rule, and the internship application modal that composes a mail draft. */
module Careers {
  import opened Wrappers
  import opened Seqs
  import opened Text

  /** One card of the vacancy grid; `employment` is the source's `type` field. */
  datatype Vacancy = Vacancy(id: string, title: string, location: string, employment: string,
                             short: string, description: string)

  const VACANCIES: seq<Vacancy> := [
    Vacancy("geo-eng", "Ведущий геофизик", "Хабаровск", "Полная занятость",
            "Полевые работы, интерпретация, отчёты.",
            "Требования:\n• профильное образование;\n• опыт 3+ года;\n• Micromine / Oasis.\n\nУсловия:\n• вахта 30/30, ДМС;\n• премия за публикации."),
    Vacancy("drone-op", "Оператор БПЛА", "Выездные проекты", "Проектная работа",
            "Съёмка данных дронами.",
            "Требования:\n• сертификат ГВП;\n• Pix4D / Agisoft;\n• готовность к экспедициям."),
    Vacancy("ts-frontend", "Frontend-разработчик (React+TS)", "Удалённо", "Частичная занятость",
            "Развитие 3D-портала.",
            "Задачи:\n• компонентная библиотека;\n• WebGL-визуализация;\n• Storybook, CI/CD.")
  ]

  const InternshipId: string := "internship"

  const INTERNSHIP: Vacancy :=
    Vacancy(InternshipId, "Студенческая практика — Геофизик-стажёр", "Хабаровск", "Стажировка (оплачиваемая)",
            "Смены в поле + наставник, стипендия 25 000₽",
            "Студент получит:\n• участие в экспедиции;\n• доступ к данным;\n• диплом под научным руководством;\n• стажировку и перспективу трудоустройства.\n\nТребования:\n• 3–5 курс ГГФ/ФТИ;\n• базовые знания геофизики;\n• готовность к полю.")

  /** The select value that disables a criterion. */
  const Wildcard: string := "Все"

  /** The options of the location and employment selects. */
  const LOCATIONS: seq<string> := [Wildcard, "Хабаровск", "Выездные проекты", "Удалённо"]
  const TYPES: seq<string> := [Wildcard, "Полная занятость", "Проектная работа", "Частичная занятость",
                               "Стажировка (оплачиваемая)"]

  /** Every card the page can show: the vacancies, then the internship. */
  function AllCards(): seq<Vacancy>
  {
    VACANCIES + [INTERNSHIP]
  }

  /** The first filter stage: location and employment, each equal to the selection or wildcarded. */
  predicate CriteriaMatch(v: Vacancy, loc: string, jobType: string)
  {
    (loc == Wildcard || v.location == loc) && (jobType == Wildcard || v.employment == jobType)
  }

  /** The second filter stage: the lower-cased title includes the lower-cased search text. */
  predicate SearchMatch(v: Vacancy, search: string)
  {
    Contains(Lower(v.title), Lower(search))
  }

  function ByCriteria(loc: string, jobType: string): Vacancy -> bool
  {
    v => CriteriaMatch(v, loc, jobType)
  }

  function BySearch(search: string): Vacancy -> bool
  {
    v => SearchMatch(v, search)
  }

  /** The cards the grid renders: the two filter stages applied in turn to the card list
      `all` (the page passes `AllCards()`). A card is rendered exactly when it passes both. */
  function Filtered(all: seq<Vacancy>, loc: string, jobType: string, search: string): (r: seq<Vacancy>)
    ensures forall v :: v in r ==> v in all && CriteriaMatch(v, loc, jobType) && SearchMatch(v, search)
    ensures forall v :: v in all && CriteriaMatch(v, loc, jobType) && SearchMatch(v, search) ==> v in r
  {
    Filter(Filter(all, ByCriteria(loc, jobType)), BySearch(search))
  }

  /** With both selects on the wildcard and no search text, all four cards are shown,
      the internship last. */
  lemma DefaultShowsAll()
    ensures Filtered(AllCards(), Wildcard, Wildcard, "") == VACANCIES + [INTERNSHIP]
    ensures |Filtered(AllCards(), Wildcard, Wildcard, "")| == 4
    ensures Filtered(AllCards(), Wildcard, Wildcard, "")[3] == INTERNSHIP
  {
    WildcardsKeepAll(AllCards());
  }

  /** With both selects on the wildcard and no search text, any card list is shown whole. */
  lemma WildcardsKeepAll(all: seq<Vacancy>)
    ensures Filtered(all, Wildcard, Wildcard, "") == all
  {
    FilterKeepsAll(all, ByCriteria(Wildcard, Wildcard));
    EmptySearchKeepsAll(all, Wildcard, Wildcard);
  }

  /** The search stage keeps a card iff its lower-cased title includes the lower-cased
      search text; so an empty search keeps everything the first stage kept. */
  lemma EmptySearchKeepsAll(all: seq<Vacancy>, loc: string, jobType: string)
    ensures Filtered(all, loc, jobType, "") == Filter(all, ByCriteria(loc, jobType))
  {
    var first := Filter(all, ByCriteria(loc, jobType));
    forall v | v in first ensures BySearch("")(v) {
      assert Lower("") == "";
      ContainsEmpty(Lower(v.title));
    }
    FilterKeepsAll(first, BySearch(""));
  }

  /** Choosing the Khabarovsk location leaves the lead geophysicist and the internship. */
  lemma KhabarovskShowsTwo()
    ensures Filtered(AllCards(), "Хабаровск", Wildcard, "") == [VACANCIES[0], INTERNSHIP]
  {
    EmptySearchKeepsAll(AllCards(), "Хабаровск", Wildcard);
    var all, p := AllCards(), ByCriteria("Хабаровск", Wildcard);
    assert p(all[0]) && !p(all[1]) && !p(all[2]) && p(all[3]);
    assert all[3..][1..] == [];
    assert Filter(all[3..], p) == [INTERNSHIP];
    assert Filter(all[2..], p) == Filter(all[3..], p) by { assert all[2..][1..] == all[3..]; }
    assert Filter(all[1..], p) == Filter(all[2..], p) by { assert all[1..][1..] == all[2..]; }
  }

  /** The rendered cards are the full list with some cards deleted, in the original order. */
  lemma FilteredIsSubsequence(all: seq<Vacancy>, loc: string, jobType: string, search: string)
    ensures IsSubsequence(Filtered(all, loc, jobType, search), all)
  {
    FilterFilter(all, ByCriteria(loc, jobType), BySearch(search));
    FilterIsSubsequence(all, Both(ByCriteria(loc, jobType), BySearch(search)));
  }

  /** Narrowing any criterion (a wildcard replaced by a value, or a search text replaced
      by one that includes it) shows a subsequence of what was shown before. */
  lemma Narrowing(all: seq<Vacancy>, loc: string, jobType: string, search: string, loc': string, jobType': string, search': string)
    requires loc == Wildcard || loc' == loc
    requires jobType == Wildcard || jobType' == jobType
    requires Contains(search', search)
    ensures IsSubsequence(Filtered(all, loc', jobType', search'), Filtered(all, loc, jobType, search))
  {
    LowerKeepsContains(search', search);
    forall v | v in all && SearchMatch(v, search') ensures SearchMatch(v, search) {
      ContainsTransitive(Lower(v.title), Lower(search'), Lower(search));
    }
    PipelineMonotone(all, ByCriteria(loc, jobType), BySearch(search),
                     ByCriteria(loc', jobType'), BySearch(search'));
  }

  /** A file chosen in the resume input; only its name is modelled. */
  datatype PdfFile = PdfFile(name: string)

  /** The internship application draft (`FormState`). */
  datatype InternshipForm = InternshipForm(name: string, university: string, course: string, email: string,
                                           resume: Option<PdfFile>)

  const EmptyForm: InternshipForm := InternshipForm("", "", "", "", None)

  /** The four text inputs of the modal. */
  datatype FormField = Name | University | Course | Email

  function FieldValue(f: InternshipForm, field: FormField): string
  {
    match field
    case Name => f.name
    case University => f.university
    case Course => f.course
    case Email => f.email
  }

  /** The draft after one text input's change handler: that field takes the new value,
      the other three fields and the resume keep theirs. */
  function WithField(f: InternshipForm, field: FormField, value: string): (r: InternshipForm)
    ensures FieldValue(r, field) == value
    ensures forall g :: g != field ==> FieldValue(r, g) == FieldValue(f, g)
    ensures r.resume == f.resume
  {
    match field
    case Name => f.(name := value)
    case University => f.(university := value)
    case Course => f.(course := value)
    case Email => f.(email := value)
  }

  const HrAddress: string := "hr@tektonika.ru"
  const SubjectSuffix: string := " — Заявка на стажировку"

  /** The mail the submit handler opens, before percent-encoding into the `mailto:` link. */
  datatype MailDraft = MailDraft(recipient: string, subject: string, body: string)

  function Subject(f: InternshipForm): string
  {
    f.name + SubjectSuffix
  }

  function Body(f: InternshipForm): string
  {
    "Имя: " + f.name + "\nВУЗ: " + f.university + "\nКурс: " + f.course + "\nEmail: " + f.email
  }

  /** The applicant's name read back from a subject line, if it has the fixed suffix. */
  function ApplicantOf(subject: string): Option<string>
  {
    if |subject| >= |SubjectSuffix| && subject[|subject| - |SubjectSuffix|..] == SubjectSuffix
    then Some(subject[..|subject| - |SubjectSuffix|])
    else None
  }

  /** The mail draft of a submitted form: addressed to HR, with a subject from which the
      applicant's name can be read back. */
  function Compose(f: InternshipForm): (m: MailDraft)
    ensures m.recipient == HrAddress
    ensures ApplicantOf(m.subject) == Some(f.name)
  {
    var subject := Subject(f);
    assert subject[|subject| - |SubjectSuffix|..] == SubjectSuffix;
    assert subject[..|subject| - |SubjectSuffix|] == f.name;
    MailDraft(HrAddress, subject, Body(f))
  }

  /** The body is exactly four labelled lines, name, university, course and e-mail in this
      order, provided no field holds a line break (text, number and e-mail inputs cannot). */
  lemma BodyLines(f: InternshipForm)
    requires '\n' !in f.name && '\n' !in f.university && '\n' !in f.course && '\n' !in f.email
    ensures SplitLines(Body(f)) == ["Имя: " + f.name, "ВУЗ: " + f.university, "Курс: " + f.course, "Email: " + f.email]
  {
    var l1, l2, l3, l4 := "Имя: " + f.name, "ВУЗ: " + f.university, "Курс: " + f.course, "Email: " + f.email;
    assert Body(f) == l1 + "\n" + (l2 + "\n" + (l3 + "\n" + l4));
    SplitSingleLine(l4);
    SplitAtBreak(l3, l4);
    SplitAtBreak(l2, l3 + "\n" + l4);
    SplitAtBreak(l1, l2 + "\n" + (l3 + "\n" + l4));
  }

  /** The chosen resume never reaches the mail. */
  lemma ComposeIgnoresResume(f: InternshipForm, file: Option<PdfFile>)
    ensures Compose(f.(resume := file)) == Compose(f)
  {
  }

  /** The page's React state. */
  class CareersPage {
    var loc: string
    var jobType: string
    var search: string
    var details: Option<Vacancy>
    var showForm: bool
    var form: InternshipForm

    constructor ()
      ensures loc == Wildcard && jobType == Wildcard && search == ""
      ensures details == None && !showForm && form == EmptyForm
    {
      loc, jobType, search := Wildcard, Wildcard, "";
      details, showForm, form := None, false, EmptyForm;
    }

    /** The cards currently rendered. */
    function Cards(): seq<Vacancy>
      reads this
    {
      Filtered(AllCards(), loc, jobType, search)
    }

    method SetSearch(text: string)
      modifies this`search
      ensures search == text
    {
      search := text;
    }

    method SetLocation(option: string)
      modifies this`loc
      ensures loc == option
    {
      loc := option;
    }

    method SetJobType(option: string)
      modifies this`jobType
      ensures jobType == option
    {
      jobType := option;
    }

    /** A click on a card: the internship card opens the application modal, any other
        card opens its details. */
    method ClickCard(v: Vacancy)
      modifies this`showForm, this`details
      ensures v.id == InternshipId ==> showForm && details == old(details)
      ensures v.id != InternshipId ==> details == Some(v) && showForm == old(showForm)
    {
      if v.id == InternshipId {
        showForm := true;
      } else {
        details := Some(v);
      }
    }

    /** The overlay or the close button of the details modal. */
    method CloseDetails()
      modifies this`details
      ensures details == None
    {
      details := None;
    }

    /** The overlay or the close button of the application modal; the draft is kept. */
    method CloseForm()
      modifies this`showForm
      ensures !showForm
    {
      showForm := false;
    }

    /** The change handler of one text input. */
    method ChangeField(field: FormField, value: string)
      modifies this`form
      ensures form == WithField(old(form), field, value)
    {
      form := WithField(form, field, value);
    }

    /** The change handler of the resume input. */
    method ChangeResume(file: Option<PdfFile>)
      modifies this`form
      ensures form == old(form).(resume := file)
    {
      form := form.(resume := file);
    }

    /** Submitting the modal: the mail is composed from the draft, the modal closes, and
        the draft is kept. */
    method SubmitForm() returns (mail: MailDraft)
      modifies this`showForm
      ensures mail == Compose(form)
      ensures !showForm
    {
      mail := Compose(form);
      showForm := false;
    }
  }

  /** Submitting, then clicking the internship card again, shows the same draft. */
  method ReopenAfterSubmit(page: CareersPage) returns (mail: MailDraft)
    modifies page
    ensures mail == Compose(old(page.form))
    ensures page.showForm && page.form == old(page.form)
  {
    mail := page.SubmitForm();
    page.ClickCard(INTERNSHIP);
  }
}
