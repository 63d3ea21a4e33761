# Tektonika site: interaction logic in Dafny

This project models the client-side logic of the Tektonika corporate website, a React
site for a geophysical services company. The site has no backend. What logic it has
falls into three kinds:

- **Filters over constant tables.** These are the careers vacancy filter (location,
  employment type and title search, each with a wildcard), the projects year filter,
  the services category tabs and the header's active-link rule. They are modelled as
  functions over `seq`s of records. All of them use one shared, order-preserving
  `Seqs.Filter`, which stands for JavaScript's `Array.prototype.filter`.
- **Form state machines.** These are the contact page's submit cycle (idle,
  submitting, then success or failure), the older contact component's one-way
  `submitted` flag, and the careers internship modal. The modal edits a draft field by
  field and, on submit, composes a mail to HR. They are modelled as classes: each
  component's `useState` variables are fields, and each event handler is a method whose
  `modifies` frame names exactly the state it sets.
- **Small toggles.** These are the header's burger menu flag and the project modal.

Modules follow the source files:

- `Careers`: `src/pages/Careers.tsx`
- `ContactPage`: `src/pages/Contacts.tsx`
- `LegacyContacts`: `src/components/Contacts.tsx`
- `Projects`: `src/pages/Projects.tsx`
- `Services`: `src/pages/Services.tsx`
- `Header`: `src/components/Header.tsx`

Three helper modules support them:

- `Seqs`: filtering, the subsequence relation, and lemmas about them.
- `Text`: lower-casing, `includes`, and line splitting.
- `Wrappers`: `Option`.

The site's only internship form is a single-step modal with four text inputs and a
resume file input. Submitting it builds a `mailto:` link and closes
the modal.

The contact page's relay call (`emailjs.sendForm`) is not modelled. Its result enters
as a parameter: `RelayOutcome`, which is `Delivered`, or `Rejected` with the thrown
value. The asynchronous handler is split at its `await`:

- `StartSubmit` covers the checks and state changes before the call.
- `SettleSubmit` covers the `try`/`catch`/`finally` after it.
- `SubmitOnce` runs the two in sequence.

## Model

| member | source | states |
|---|---|---|
| `Seqs.Filter` | src/pages/Careers.tsx:42-44 | `.filter`: the result is no longer than the input and holds exactly the input's elements that satisfy the predicate |
| `Careers.Filtered` | src/pages/Careers.tsx:41-44 | a card is rendered iff it is in the card list (the page passes the four cards), its location and type each equal the selection or the selection is "Все", and its lower-cased title includes the lower-cased search text |
| `Careers.DefaultShowsAll` | src/pages/Careers.tsx:34-44 | with both selects on "Все" and an empty search, all four cards are shown in order, the three vacancies then the internship last |
| `Careers.WildcardsKeepAll` | src/pages/Careers.tsx:42-44 | with both selects on "Все" and an empty search, any card list is shown whole and in order |
| `Careers.EmptySearchKeepsAll` | src/pages/Careers.tsx:44 | an empty search text keeps every card that the location/type stage kept |
| `Careers.KhabarovskShowsTwo` | src/pages/Careers.tsx:18-44 | choosing "Хабаровск" shows exactly the lead geophysicist card and the internship card, in that order |
| `Careers.FilteredIsSubsequence` | src/pages/Careers.tsx:41-44 | the rendered cards are an order-preserving subsequence of all cards |
| `Careers.Narrowing` | src/pages/Careers.tsx:42-44 | replacing a wildcard with a value, or the search text with one that includes it, yields a subsequence of the previous result |
| `Careers.WithField` | src/pages/Careers.tsx:155-158 | a text input's change sets its own field to the new value; the other three fields and the resume are unchanged |
| `Careers.Compose` | src/pages/Careers.tsx:48-50 | the mail goes to hr@tektonika.ru, and the applicant's name can be read back from the subject "<name> — Заявка на стажировку" |
| `Careers.BodyLines` | src/pages/Careers.tsx:49 | for fields without line breaks, the body splits into exactly the lines "Имя: …", "ВУЗ: …", "Курс: …", "Email: …", in that order |
| `Careers.ComposeIgnoresResume` | src/pages/Careers.tsx:48-49 | the composed mail does not depend on the chosen resume |
| `Careers.CareersPage.constructor` | src/pages/Careers.tsx:34-39 | both filters start on "Все", the search is empty, no modal is open, and the draft is empty |
| `Careers.CareersPage.SetSearch` | src/pages/Careers.tsx:74 | only `search` changes, to the typed text |
| `Careers.CareersPage.SetLocation` | src/pages/Careers.tsx:76 | only `loc` changes, to the chosen option |
| `Careers.CareersPage.SetJobType` | src/pages/Careers.tsx:79 | only `jobType` changes, to the chosen option |
| `Careers.CareersPage.ClickCard` | src/pages/Careers.tsx:118 | the "internship" card sets `showForm` and leaves `details` alone; any other card sets `details` to itself and leaves `showForm` alone |
| `Careers.CareersPage.CloseDetails` | src/pages/Careers.tsx:136-138 | the details modal closes; nothing else changes |
| `Careers.CareersPage.CloseForm` | src/pages/Careers.tsx:150-152 | the application modal closes; the draft is kept |
| `Careers.CareersPage.ChangeField` | src/pages/Careers.tsx:155-158 | only the draft changes, by `WithField` |
| `Careers.CareersPage.ChangeResume` | src/pages/Careers.tsx:159 | only the draft's resume changes |
| `Careers.CareersPage.SubmitForm` | src/pages/Careers.tsx:46-52 | returns the composed mail of the current draft and closes the modal; the draft is kept |
| `Careers.ReopenAfterSubmit` | src/pages/Careers.tsx:46-52 | submitting and then clicking the internship card reopens the modal with the same draft |
| `ContactPage.Set` | src/pages/Contacts.tsx:33-38 | the named field takes the value; the other three fields are unchanged |
| `ContactPage.ContactPageState.constructor` | src/pages/Contacts.tsx:13-30 | four empty fields, not submitting, no result |
| `ContactPage.ContactPageState.Render` | src/pages/Contacts.tsx:142-245 | the success and error banners are never both shown; a banner shows iff there is a result; every input and the button are disabled exactly while submitting, and the button reads "Отправка..." then; in a valid state no banner shows while submitting |
| `ContactPage.ContactPageState.HandleChange` | src/pages/Contacts.tsx:33-38 | only the form data changes, by `Set` |
| `ContactPage.ContactPageState.StartSubmit` | src/pages/Contacts.tsx:41-46 | with no mounted form, no state changes; otherwise `isSubmitting` becomes true and the previous result is cleared |
| `ContactPage.ContactPageState.SettleSubmit` | src/pages/Contacts.tsx:48-76 | on delivery: the result is `{success: true}` and all four fields are "". On rejection the fields are kept and the result is `{success: false, error}`, where `error` is the thrown `Error`'s own message, or "Неизвестная ошибка при отправке" when the thrown value is not an `Error`. Either way `isSubmitting` ends false |
| `ContactPage.SubmitOnce` | src/pages/Contacts.tsx:41-76 | a whole submission ends idle; it shows the success banner iff the relay delivered, or else the error banner with the thrown `Error`'s message, or "Неизвестная ошибка при отправке" for any other thrown value; the fields are cleared only on delivery |
| `LegacyContacts.Set` | src/components/Contacts.tsx:8-10 | the named field takes the value; the other two fields are unchanged |
| `LegacyContacts.ContactSection.constructor` | src/components/Contacts.tsx:5-6 | three empty fields, not submitted |
| `LegacyContacts.ContactSection.HandleChange` | src/components/Contacts.tsx:8-10 | only the form changes, by `Set`; `submitted` is outside its frame |
| `LegacyContacts.ContactSection.HandleSubmit` | src/components/Contacts.tsx:12-17 | `submitted` becomes true and the panel becomes the thank-you note (src/components/Contacts.tsx:31-34); the form is kept, and there is no failure path |
| `LegacyContacts.EventsAfterThankYou` | src/components/Contacts.tsx:5-17 | once the thank-you note shows, a later edit and a later submit leave it showing (nothing clears `submitted`), while the edit still updates the hidden form by `Set` |
| `Projects.Visible` | src/pages/Projects.tsx:52-54 | for a numeric year, exactly the projects of that year are shown; for "Все", every project |
| `Projects.AnyYearShowsAll` | src/pages/Projects.tsx:49-54 | the initial "Все" filter shows all three projects in declared order |
| `Projects.VisibleInOrder` | src/pages/Projects.tsx:52-54 | every filter result is an order-preserving subsequence of the table |
| `Projects.EachYearShowsOne` | src/pages/Projects.tsx:14-54 | each numeric year button shows exactly one project, the one of that year |
| `Projects.OneYearHighlighted` | src/pages/Projects.tsx:80-91 | a selection among the year buttons highlights exactly one button |
| `Projects.ProjectsPage.constructor` | src/pages/Projects.tsx:49-50 | the filter starts on "Все" and no project modal is open |
| `Projects.ProjectsPage.SelectYear` | src/pages/Projects.tsx:83 | only `filterYear` changes; the open modal is untouched |
| `Projects.ProjectsPage.OpenProject` | src/pages/Projects.tsx:105 | only `active` changes, to the clicked project |
| `Projects.ProjectsPage.CloseProject` | src/pages/Projects.tsx:140 | only `active` changes, to null |
| `Services.Shown` | src/pages/Services.tsx:113 | the rendered categories are exactly those whose slug equals `active` |
| `Services.SlugsDistinct` | src/pages/Services.tsx:14-61 | the category slugs are pairwise distinct |
| `Services.ShownIsTab` | src/pages/Services.tsx:96-113 | selecting the i-th tab renders the i-th category alone |
| `Services.ShownIsOne` | src/pages/Services.tsx:113 | for any selected slug, exactly one category is rendered |
| `Services.OneTabHighlighted` | src/pages/Services.tsx:100-104 | exactly one tab is highlighted: the one whose slug equals `active` |
| `Services.ServicesPage.constructor` | src/pages/Services.tsx:64 | the active slug starts as the first category's, "geophysics" |
| `Services.ServicesPage.ClickTab` | src/pages/Services.tsx:99 | clicking a category's tab makes its slug active, which stays a slug of the table |
| `Header.ActiveItems` | src/components/Header.tsx:38-39 | the active links are exactly those whose target equals the path |
| `Header.TargetsDistinct` | src/components/Header.tsx:13-21 | the link targets are pairwise distinct |
| `Header.ActiveOnOwnPath` | src/components/Header.tsx:38-39 | on a link's own target, that link alone is active |
| `Header.AtMostOneActive` | src/components/Header.tsx:38-39 | on any path, at most one link is active |
| `Header.NoneActiveOnContacts` | src/components/Header.tsx:13-21 | on "/contacts", no link is active |
| `Header.LongerPathInactive` | src/components/Header.tsx:39 | a target extended by any non-empty suffix (a sub-path) does not make the link active |
| `Header.OnlyCareersIsButton` | src/components/Header.tsx:13-21 | only the "/careers" link carries the button style |
| `Header.DesktopMenuLook` | src/components/Header.tsx:38-61 | over the whole desktop menu on any path: a link is highlighted iff it is one of the active links, at most one link is highlighted, only the "/careers" link is button-styled, and every other link's underline is full iff the path is its own target |
| `Header.HeaderState.constructor` | src/components/Header.tsx:24 | the mobile menu starts closed |
| `Header.HeaderState.ToggleMenu` | src/components/Header.tsx:69 | the burger button flips `open` |
| `Header.HeaderState.FollowMobileLink` | src/components/Header.tsx:87 | following any mobile link sets `open` to false |

## Left out

- The relay call `emailjs.sendForm` (src/pages/Contacts.tsx:53-58) and its service, template and key identifiers: this is network I/O through a foreign library. Its settling enters `SettleSubmit` as a `RelayOutcome` parameter. A relay that never settles leaves `isSubmitting` true for ever, because there is no timeout.
- `formRef.current`: this is a DOM reference. Whether it is set enters `StartSubmit` as a boolean.
- `console.log` and `console.error` (src/pages/Contacts.tsx:59, 65; src/components/Contacts.tsx:15): console output only.
- `encodeURIComponent` and the `window.location.href` navigation (src/pages/Careers.tsx:48-50): these are browser calls. The model stops at the subject and body strings before percent-encoding.
- `Text.Lower` models `toLowerCase` only for ASCII A-Z and the Cyrillic capitals U+0400..U+042F. Those are the characters the site's titles use. Other scripts, and special cases such as the final sigma, are not modelled.
- Native browser validation (`required`, `type="email"`, `min`/`max` on the course input, `accept`): this is not code of the site. `Careers.BodyLines` assumes fields with no line break. Browsers strip line breaks from text and e-mail inputs, and a number input's value is a valid floating-point number or empty, so it holds no line break.
- The resume file is modelled by its name only. Its contents are never read.
- Disabled controls fire no events. The handlers themselves do not check this, so the model does not require it of its callers either. The rule is stated on `Render`.
- The tab and lightbox state of the media and research pages: each is a bare assignment of a selected key, with no rule attached.
- Routing, the layout's scroll handling, the footer's clock-based year, animation, media and styling: these are library, DOM or presentation behaviour.
- The static pages (home, about, media, research, not found, the news article) and the card components: they hold no logic.
