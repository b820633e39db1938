# Portfolio site: verified model of its rules and small state machines

A personal portfolio website has two alternative client scripts
(`portfolio-script.js` and `script.js`) and a small Express backend
(`backend/server.js`). Most of the code is DOM wiring. This project models
the parts of it that are rules or small state machines, and proves what
they promise:

- **Contact-form validation** (`portfolio-script.js`). There is one regular
  expression per field name, applied to the trimmed value. A lenient check
  runs on blur and input and accepts blank fields; a strict check decides
  whether the form is posted. Text is a sequence of UTF-16 code units,
  because `length`, `.` and `{m,n}` count code units (module `Utf16`).
  The email pattern is modelled by what its backtracking match means: some
  split of the value works. That is proved equivalent to the `L@D` shape,
  which implies that an accepted address has exactly one '@'; the converse
  fails, since "a@b" has one '@' and is rejected (module `FormRules`).
- **The submit handler and its button** (`PortfolioForm`). An invalid form
  only shows an error toast. A valid form is posted with the button disabled
  and relabelled. When the request settles (ok, HTTP error or network error
  alike) the button is enabled again with the label it had before.
- **Two theme state machines**, kept apart because they disagree
  (`PortfolioTheme`, `ScriptTheme`, and `ThemeDivergence` for the
  differences). Both choose the initial theme by the same rule, defined once
  in `ThemeChoice`. They differ in three ways:
  - the default read for a missing `data-theme` attribute;
  - the icon mapping, which is inverted;
  - whether the initial theme is written to storage.
- **The project modal** (`PortfolioModal`). Opening is a lookup in a fixed
  table of project titles. It sets the modal's `active` flag and locks body
  scrolling. Closing undoes both. Escape closes only an open modal.
- **Navigation in `script.js`** (`ScriptNavigation`). The mobile menu
  toggle sets `aria-expanded` to the menu's new state. A link click closes
  the menu but does not write `aria-expanded`, so opening the menu and then
  clicking a link leaves `aria-expanded="true"` on a closed menu. `updateActiveLink` highlights the link of the last section, in
  document order, whose band contains the scroll position.
- **Form-status helpers and the one-shot reveal observer of `script.js`**
  (`ScriptFormStatus`, `ScriptAnimations`). An element is animated at most
  once per observer. The keyframes `<style>` element is added at most once.
- **The backend** (`Server`): one pure function from (method, path, body)
  to (status, JSON).

The browser state is held in classes whose methods update their fields.
Pure logic, including the whole server, is held in functions and lemmas.

The two client scripts treat the theme as "dark" or "light", but their code
accepts and writes back any saved string. This model follows the code:
`ToggleTwiceOther` shows that a saved "blue" does not survive two toggles.

## Model

| member | source | states |
|---|---|---|
| Utf16.Trim | portfolio-script.js:344-346 | `trim` returns the slice that starts after the leading whitespace and leaves only whitespace after it. It is empty exactly when the value is all whitespace; otherwise it neither starts nor ends with whitespace. |
| Utf16.TrimIdempotent | portfolio-script.js:344-346 | Trimming an already trimmed value changes nothing. |
| FormRules.AllValid | portfolio-script.js:364-367 | The submit check passes exactly when every field either has no rule or its trimmed value matches its rule. |
| FormRules.ValidateField | portfolio-script.js:342-349 | These cases pass and leave the border untouched: a field with no rule, and a field whose trimmed value is blank. Any other field passes exactly when the strict test does, and its border becomes 'inherit' if it passes and red if it fails. |
| FormRules.BlankRuledFieldRejectedOnSubmit | portfolio-script.js:343-367 | A blank value in a ruled field passes the blur check and fails the submit check. |
| FormRules.SubmitImpliesBlur | portfolio-script.js:342-367 | Every field of a form that passes the submit check also passes the blur check. |
| FormRules.NameRuleMeaning | portfolio-script.js:336 | A name passes iff its trimmed value has 3 to 50 code units, each an ASCII letter or whitespace. |
| FormRules.NameWithInnerSpace | portfolio-script.js:336 | "  Jo Do " passes: inner spaces are allowed. |
| FormRules.EmailPatternShape | portfolio-script.js:337 | The email pattern matches iff the value is L + '@' + D, where L and D are non-empty and free of whitespace and '@', and D has a '.' that is neither its first nor its last unit. |
| FormRules.EmailSingleAt | portfolio-script.js:337 | An accepted email contains exactly one '@'. |
| FormRules.EmailExample | portfolio-script.js:337 | "jo@x.com" is accepted. |
| FormRules.EmailTwoAtsRejected | portfolio-script.js:337 | "a@b@c.d" is rejected. |
| FormRules.OneAtNotEnough | portfolio-script.js:337 | "a@b" has exactly one '@' and is still rejected, because its domain has no inner '.'. |
| FormRules.SubjectRuleMeaning | portfolio-script.js:338 | A subject passes iff its trimmed value has 5 to 100 units, none a line terminator. |
| FormRules.MessageRuleMeaning | portfolio-script.js:339 | A message passes iff its trimmed value has 10 to 1000 units, none a line terminator. |
| FormRules.MultiLineMessageRejected | portfolio-script.js:338-339 | A line terminator inside the trimmed value fails both the subject and the message rule, whatever the length. |
| PortfolioForm.Reset | portfolio-script.js:389-390 | After a successful send every input is back at its default value, with border 'inherit'. |
| PortfolioForm.ContactForm.Blur | portfolio-script.js:352-353 | A blur validates that one input; nothing else changes. |
| PortfolioForm.ContactForm.Edit | portfolio-script.js:354-356 | An edit stores the new value and validates it only when the raw value is non-empty. |
| PortfolioForm.ContactForm.Submit | portfolio-script.js:360-378 | The form is posted iff the submit check passes. An invalid form adds only the error toast: the button is neither disabled nor relabelled, and nothing is sent. A valid form sends its fields and disables and relabels the button, remembering the old label. |
| PortfolioForm.ContactForm.Settle | portfolio-script.js:380-399 | A settled request adds the toast for its outcome and resets the form only on success. In every case it re-enables the button with that request's saved label. |
| PortfolioForm.SubmitAndSettle | portfolio-script.js:369-399 | With nothing in flight, a valid submission ends with the button enabled and carrying its original label, whatever the outcome. An invalid one leaves the button, the inputs and the sent requests unchanged and adds only the error toast. A valid one resets the inputs exactly when the outcome is ok. |
| ThemeChoice.InitialTheme | portfolio-script.js:53-59 | A non-empty saved value wins; otherwise the OS preference decides between 'dark' and 'light'. `script.js` (lines 21-23) uses the same rule, so both modules share this definition. |
| PortfolioTheme.Toggled | portfolio-script.js:86-87 | A toggle gives 'light' iff the attribute is missing, empty or 'dark'; every other value gives 'dark'. |
| PortfolioTheme.ViewFor | portfolio-script.js:67-77 | The icon is `fas fa-sun` iff the theme is 'light'. |
| PortfolioTheme.ToggleTwice | portfolio-script.js:86-88 | Toggling twice restores 'dark' and 'light'. |
| PortfolioTheme.ToggleTwiceOther | portfolio-script.js:86-88 | A saved "blue" comes back as 'light' after two toggles. |
| PortfolioTheme.ThemeDom.Init | portfolio-script.js:79-81 | The initial theme is set and stored at once; attribute, storage and icon agree. |
| PortfolioTheme.ThemeDom.SetTheme | portfolio-script.js:61-65 | `setTheme` writes the attribute, the stored `theme` key and the toggle view (if there is a toggle) together, and nothing else. |
| PortfolioTheme.ThemeDom.Click | portfolio-script.js:84-89 | With a toggle present, a click sets and stores the toggled theme, and the toggle shows the view for it. Without one, nothing changes. |
| PortfolioTheme.ThemeDom.SystemChange | portfolio-script.js:93-95 | An OS preference change sets and stores 'dark' or 'light' to match it; a present toggle shows the view for that theme, and an absent one stays absent. |
| PortfolioTheme.ClickTwice | portfolio-script.js:84-89 | From a synchronised 'dark' or 'light' page with a toggle, two clicks restore the attribute, the stored key and the toggle view. |
| PortfolioModal.Modal.Open | portfolio-script.js:249-296 | An unknown title changes nothing. A known title makes the modal active and sets the body overflow to 'hidden'. |
| PortfolioModal.Modal.Close | portfolio-script.js:298-301 | Closing deactivates the modal and sets the overflow to 'auto'. |
| PortfolioModal.Modal.CardClick | portfolio-script.js:304-309 | A card whose heading is missing, empty or not a known title does nothing. A card whose heading is a known title opens the modal. |
| PortfolioModal.Modal.KeyDown | portfolio-script.js:319-323 | Escape closes the modal iff it is active; every other key, or a closed modal, leaves everything as it was. |
| PortfolioModal.OpenThenEscape | portfolio-script.js:294-322 | From a closed modal, open followed by Escape leaves it closed. The overflow is 'auto' for a known title and untouched for an unknown one. |
| ScriptTheme.Toggled | script.js:30-31 | A click gives 'light' iff the attribute is 'dark'. A missing attribute reads as 'light', so it gives 'dark'. |
| ScriptTheme.IconFor | script.js:39-44 | The icon is `fas fa-sun` iff the theme is 'dark'. |
| ScriptTheme.ToggleTwice | script.js:30-31 | Clicking twice restores 'dark' and 'light'. |
| ScriptTheme.ThemeDom.Init | script.js:16-26 | The initial theme is set on the attribute and the icon, and storage is left unchanged. |
| ScriptTheme.ThemeDom.Click | script.js:28-35 | With a toggle present, a click sets the attribute, storage and icon to the toggled theme. Without one, nothing changes. |
| ScriptTheme.InitThenClick | script.js:21-34 | Between page load and the first click, storage is exactly what it was before the script ran. After the click it holds the toggled initial theme, which equals the attribute. |
| ThemeDivergence.IconsInverted | portfolio-script.js:70-76 | On 'dark' and 'light', the two scripts show the sun for opposite themes (the other mapping is script.js:42). |
| ThemeDivergence.MissingAttributeDefaults | portfolio-script.js:86 | With no attribute, this script toggles to 'light' and `script.js` (line 30) to 'dark'. |
| ScriptNavigation.LastInBand | script.js:79-94 | This picks the last section, in document order, with offsetTop-100 < scrollY <= offsetTop-100+offsetHeight. It is none iff no section qualifies. |
| ScriptNavigation.FirstLink | script.js:89 | This picks the first link whose href equals the target. It is none iff there is no such link. |
| ScriptNavigation.Highlight | script.js:85-92 | At most one link is active: the one for the section, or none if the section has no link. |
| ScriptNavigation.Navigation.UpdateActiveLink | script.js:75-95 | Afterwards only the link of the last in-band section is active. If no section is in band, the active links are unchanged. |
| ScriptNavigation.Navigation.ToggleMenu | script.js:53-57 | A toggle flips the menu and sets `aria-expanded` to the new state. Without a toggle element nothing changes. |
| ScriptNavigation.Navigation.LinkClick | script.js:61-66 | A link click always leaves the menu inactive, then updates the active link. |
| ScriptFormStatus.ShowSuccess | script.js:134-141 | With an element, it sets the success text and the class `form-status success`. |
| ScriptFormStatus.ShowError | script.js:143-150 | With an element, it sets the given message and the class `form-status error`. |
| ScriptFormStatus.ShowWithoutElement | script.js:134-135 | With a null element, both helpers change nothing. |
| ScriptAnimations.Document.InjectKeyframes | script.js:179-191 | The style is appended only when its id is absent, so it occurs at most once. |
| ScriptAnimations.RevealObserver.Observe | script.js:175 | The element joins the observed set; the at-most-once invariant is kept. |
| ScriptAnimations.RevealObserver.Entry | script.js:161-165 | An intersecting, still-observed target gets `fadeInUp` and is unobserved. Any other entry changes nothing. |
| ScriptAnimations.RevealObserver.Callback | script.js:160-167 | A batch of entries keeps the invariant: no element is animated twice, and only elements that were observed are animated. |
| ScriptAnimations.SetupAnimations | script.js:153-192 | Every card is hidden and observed by a fresh observer, with its animation left as it was. The keyframes are added if they are missing. |
| ScriptAnimations.SetupTwice | script.js:179-191 | After two runs, the keyframes style occurs exactly once. |
| Server.RouteOf | backend/server.js:20-56 | The contact route is exactly POST /api/contact, and the projects route exactly GET /api/projects. |
| Server.ContactHandler | backend/server.js:56-70 | The response is the 400 error iff name, email or message is falsy. A submission is logged iff the acknowledgement is sent. |
| Server.Handle | backend/server.js:20-81 | A body-parse failure is a 500 for every route. Only the contact route logs. A 400 only comes from a parsed contact body with a falsy field. Every status is 200, 400, 404 or 500. |
| Server.ContactRejectedIffFalsy | backend/server.js:57-61 | POST /api/contact answers 400 `Missing required fields` iff some field is falsy, and then logs nothing. |
| Server.ContactAcceptsAnyTruthyFields | backend/server.js:59-69 | With all three fields truthy, the answer is the 200 acknowledgement whatever the contents are, and exactly those fields are logged. |
| Server.ProjectsFixture | backend/server.js:37-54 | GET /api/projects gives a two-element list with ids 1 then 2; only the second has a null `url`. |
| Server.FixturesConstant | backend/server.js:25-54 | The about and projects answers depend on neither the request body nor the clock. |
| Server.HealthOk | backend/server.js:20-22 | GET /health answers 200 with `status: 'ok'`. |
| Server.UnmatchedIsNotFound | backend/server.js:73-75 | Any request no route matches gets 404 `Endpoint not found`. |
| Server.ErrorsAreInternal | backend/server.js:78-81 | Every error gives the same 500 `Internal server error`, whatever status it carried. |
| Server.ContactExamples | backend/server.js:56-70 | "Jo"/"jo@x.com"/"hi" is acknowledged; an empty name is refused. |

## Left out

- Timers: toast lifetime, the 5-second clearing of the form status class, and `throttle`/`debounce`. They depend on wall-clock scheduling.
- Network: `fetch` is replaced by an `Outcome` parameter (ok, HTTP error, network error), and each request is settled by an explicit `Settle` call.
- Rendering: the `innerHTML` and text templates `openModal` fills in, and `showToast`'s markup. Only the table's keys (the project titles) are kept.
- Missing DOM elements that would throw a TypeError: a missing `<i>` in the theme toggle, a missing `#navMenu` (both the menu toggle and every nav-link click write to it), a missing submit button. The model assumes these elements exist.
- Missing containers that make the setup return early: without `#projectModal` (portfolio-script.js:207) no modal listener is attached, so card clicks and Escape never touch the modal or the body overflow; without `#contactForm` (portfolio-script.js:331) no field is ever validated and no submission is handled. The model assumes both exist.
- Keys inherited through the object prototype: in JavaScript, `validationRules['constructor']` and `projectsData['toString']` find non-project values. The model's tables hold exactly the listed keys.
- Section ids are placed into a CSS selector without escaping. The model matches `href` against `"#" + id` by plain string equality.
- `pageYOffset` can be fractional; the model takes it and the layout offsets as integers.
- JSON numbers are reals without NaN or negative zero, so `0` is the only falsy number.
- Express internals: CORS and its preflight answers, HEAD requests, case-insensitive and trailing-slash route matching, request logging, `dotenv` and `listen`. Routes match by exact method and path.
- The `/health` timestamp and every `console.log` call. The timestamp is a parameter; the contact log is the `logged` field of the result.
- `script.js`'s `initFormHandling` submit handler: the model covers only the status helpers it calls (`showSuccess`, `showError`).
- The `js/api.js` fetch wrappers, the counter, parallax, typing and skill-bar animations, smooth scrolling, clipboard copy, keyboard shortcuts and service-worker registration.
- IntersectionObserver geometry (`threshold`, `rootMargin`). Intersections are supplied as events. The model assumes entries arrive only for targets that are still observed, and that one batch is processed in order.
- ScriptAnimations.RevealObserver.Callback: states the at-most-once invariant for a batch, not the exact resulting set of animated elements; the exact behaviour of one entry is stated by `Entry`.
