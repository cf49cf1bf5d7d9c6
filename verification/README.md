# Personal website scripts, modelled in Dafny

This project models the client-side behaviour of a personal portfolio site. It covers three scripts.

- **The FAQ chat widget** (`js/chatbot.js`). The rule chain of `getResponse` tests thirteen keyword groups in order on the lower-cased question, and answers with the reply of the first group one of whose keywords occurs in it. When none does, it answers with one of three fallbacks. The `PersonalChatbot` object holds the open flag, the transcript, the input box, the send button and the typing indicator. `sendMessage` is split at its timer: a synchronous `Submit` and a deferred `Respond`.
- **The site script** (`js/script.js`):
  - the dark/light theme decision at startup, the two `enable...Mode` writers, the toggle and the icon;
  - the mobile menu and the handlers that close it (outside click, Escape, resize);
  - the navbar flags recomputed on each scroll event;
  - the contact form's validation, including the email regular expression.
- **The animation script** (`js/animations.js`):
  - `getCurrentPage`;
  - the class tagging done by each page's setup and by the hover setup;
  - the scroll observer's callback;
  - the typewriter reveal of the home page's subtitle, as an interval timer ticked one character at a time.

## Modelling choices

- Strings are `seq<char>`. `String.prototype.includes` is a naive left-to-right search (`Text.Contains`), proved equivalent to "occurs at some index". `toLowerCase` is restricted to the ASCII letters. `trim` and `\s` share the ECMAScript whitespace set.
- The chatbot's keyword table has the thirteen rules of the code (js/chatbot.js:194-250), one `Keywords` group per `if`.
- The random choice of fallback reply is the parameter `pick` (0, 1 or 2).
- The system colour-scheme preference, the key pressed, the window width, the scroll position and the position of a click target are all parameters.
- The elements a selector matches are given to the model as sequences (`Animations.PageMatches`), in document order. Selectors are not evaluated.
- `setupAnimations` creates the observer before the page setups run (js/animations.js:19-24), so an element tagged `scroll-animate` by a setup is observed only if it already carried the class. `Animations.SetupAnimations` states the observer's targets as the elements matched before any tagging.
- An element's class list is a `set<string>`. Its `style.animationDelay` is an `Option<nat>` in tenths of a second.
- The page's objects whose fields the scripts update in place are Dafny classes:
  - the chat widget;
  - the theme switcher (root attribute, local storage, icon);
  - the mobile menu;
  - the navbar closure;
  - the contact form;
  - DOM elements;
  - the scroll observer;
  - the typewriter timer.

## Model

| member | source | states |
|---|---|---|
| Text.Contains | js/chatbot.js:194 | `includes` as a left-to-right search: never true when the keyword is longer than the text, always true for an empty keyword |
| Text.ContainsAt | js/chatbot.js:194 | `s.includes(sub)` holds exactly when `sub` occurs in `s` at some index |
| Text.ContainsTransitive | js/chatbot.js:216 | a string containing a word contains every substring of that word (why "email" triggers "ai") |
| Text.MissingChar | js/chatbot.js:194 | a string lacking one character of a keyword cannot contain the keyword |
| Text.Lower | js/chatbot.js:191 | `toLowerCase` on ASCII: same length, each upper-case letter replaced by its lower-case letter (code + 32), every other character kept, none upper-case left |
| Text.LowerIdempotent | js/chatbot.js:191 | lower-casing twice equals lower-casing once |
| Text.Trim | js/chatbot.js:124 | `trim` leaves no whitespace at either end and is no longer than its input |
| Text.TrimSlice | js/chatbot.js:124 | the trimmed text is one slice of the input with only whitespace before and after it |
| Text.TrimEmptyIffAllSpace | js/chatbot.js:124-125 | the trimmed text is empty exactly when the input is all whitespace |
| Text.TrimIdempotent | js/chatbot.js:124 | trimming twice equals trimming once |
| Chatbot.FiresIffOccurs | js/chatbot.js:194-250 | one rule's chain of `includes` tests succeeds exactly when one of its keywords occurs at some index of the message |
| Chatbot.FirstFiring | js/chatbot.js:194-250 | the first rule from `from` on that fires, and none before it fires; `None` iff none fires |
| Chatbot.Answer | js/chatbot.js:191-250 | `Some(i)` only when rule i is the first to fire on the lower-cased message; `None` only when no rule fires |
| Chatbot.GetResponse | js/chatbot.js:190-260 | reply is the reply of the first rule in chain order whose keyword occurs in the lower-cased input; `Fallback(pick)` when no rule fires |
| Chatbot.FirstFiringUnique | js/chatbot.js:194-250 | at most one rule is the first to fire |
| Chatbot.FirstFiringFinds | js/chatbot.js:194-250 | the chain stops at the first firing rule; later rules are never consulted |
| Chatbot.EarlierRuleWins | js/chatbot.js:194-250 | whenever rule i fires, the answering rule has index at most i |
| Chatbot.ShadowedKeyword | js/chatbot.js:194-250 | a keyword containing an earlier rule's keyword always lets that earlier (or a still earlier) rule answer |
| Chatbot.InternshipNeverReachesCareerGoals | js/chatbot.js:221-233 | "internship" is answered by the experience rule or an earlier one; the career-goals rule answers only via "goal", "career" or "future" |
| Chatbot.EmailCaughtByAiRule | js/chatbot.js:216-238 | any input containing "email" is answered by the AI/ML rule or an earlier one |
| Chatbot.EmailAnsweredByAiRule | js/chatbot.js:216-238 | "email" with no keyword of the first five groups yields exactly the AI/ML reply, not the contact reply |
| Chatbot.ContactRuleNeverViaEmail | js/chatbot.js:235-238 | the contact rule answers only through "contact", "reach" or "linkedin" |
| Chatbot.TellMeAboutRedundant | js/chatbot.js:244 | the general rule fires exactly when "who" or "about" occurs, so "tell me about" never decides an answer |
| Chatbot.CaseInsensitive | js/chatbot.js:191 | `getResponse(s) == getResponse(lower(s))` |
| Chatbot.FallbackReply | js/chatbot.js:253-259 | no rule fires iff the answer is `None`; then the reply is one of the three fallbacks, otherwise one of the rule replies |
| Chatbot.PersonalChatbot.constructor | js/chatbot.js:5-16 | starts closed with input "", send enabled and the welcome message as the only message |
| Chatbot.PersonalChatbot.AddWelcomeMessage | js/chatbot.js:110-121 | appends exactly the welcome bot message |
| Chatbot.PersonalChatbot.AddUserMessage | js/chatbot.js:147-151 | appends exactly one user message with the given text |
| Chatbot.PersonalChatbot.AddBotMessage | js/chatbot.js:153-157 | appends exactly one bot message with the given text |
| Chatbot.PersonalChatbot.OpenChat | js/chatbot.js:97-102 | the widget is open; window class and button label follow |
| Chatbot.PersonalChatbot.CloseChat | js/chatbot.js:104-108 | the widget is closed (from any state, so closing is idempotent); window class and label follow |
| Chatbot.PersonalChatbot.ToggleChat | js/chatbot.js:89-95 | `isOpen` flips |
| Chatbot.PersonalChatbot.OutsideClick | js/chatbot.js:82-86 | open afterwards iff it was open and the click was inside; a click while closed changes nothing |
| Chatbot.PersonalChatbot.Submit | js/chatbot.js:123-135 | blank-after-trim input changes nothing; otherwise exactly one user message with the trimmed text is appended, the input is cleared and the send button disabled |
| Chatbot.PersonalChatbot.Respond | js/chatbot.js:138-143 | exactly one bot message equal to `GetResponse(message, pick)` is appended and the send button is enabled again |
| Chatbot.PersonalChatbot.ShowReply | js/chatbot.js:139-142 | the typing indicator is hidden, the reply appended and the send button enabled, the welcome message kept first |
| ChatbotExamples.AskAfterBlank | js/chatbot.js:123-145 | a blank submit then a question give the transcript welcome, trimmed question, its reply |
| ChatbotExamples.GpaQuestionAnswered | js/chatbot.js:194-201 | "What is his GPA?" passes the education rule and is answered by the GPA rule |
| ChatbotExamples.MarkerFreeFallsBack | js/chatbot.js:253-259 | an input without any of the letters a, e, i, o, u, m matches no rule and gets `Fallback(pick)` |
| ChatbotExamples.GibberishFallsBack | js/chatbot.js:253-259 | "zzxyqw123" gets the fallback reply chosen by `pick` |
| Theme.Get | js/script.js:26 | `localStorage.getItem`: `Some` of the stored value iff the key is stored, `None` (null) otherwise |
| Theme.StartupMode | js/script.js:29-33 | dark iff the saved value is "dark", or nothing (falsy) is saved and the system prefers dark; any other saved value gives light |
| Theme.ToggleTarget | js/script.js:65-70 | the toggle goes to light iff the attribute is "dark" (a missing attribute goes to dark) |
| Theme.IconClass | js/script.js:85 | "fas fa-sun" iff the icon type is "sun", otherwise "fas fa-moon" |
| Theme.ToggleAlternates | js/script.js:64-70 | toggling a written mode yields the other mode, and toggling twice returns to the start |
| Theme.ThemeSwitcher.constructor | js/script.js:10-11 | the page as loaded: attribute, storage and icon as given |
| Theme.ThemeSwitcher.UpdateDarkModeIcon | js/script.js:83-87 | the icon's class becomes `IconClass(iconType)` when the icon exists, else nothing changes |
| Theme.ThemeSwitcher.EnableDarkMode | js/script.js:46-50 | attribute and stored `theme` both "dark", sun icon; no other storage key changes |
| Theme.ThemeSwitcher.EnableLightMode | js/script.js:55-59 | attribute and stored `theme` both "light", moon icon; no other storage key changes |
| Theme.ThemeSwitcher.ToggleDarkMode | js/script.js:64-70 | ends in `ToggleTarget(old attribute)` with attribute, storage and icon in agreement; only the `theme` key is written; a missing icon stays as it was |
| Theme.ThemeSwitcher.InitializeDarkMode | js/script.js:24-33 | ends in `StartupMode(saved, systemPrefersDark)`, with attribute, storage and icon in sync; only the `theme` key is written, and a missing icon stays as it was |
| Theme.ThemeSwitcher.SystemSchemeChanged | js/script.js:36-40 | with any truthy saved value (even one that is neither "dark" nor "light") nothing changes, so nothing changes once in sync; with nothing saved it follows the system, writing only the `theme` key; a missing icon stays as it was |
| Navigation.ToggleClass | js/script.js:98-99 | `classList.toggle`: the class flips, every other class stays |
| Navigation.Toggled | js/script.js:96-108 | `toggleMobileMenu` on values: without the elements nothing changes; otherwise both `active` classes flip, no other class changes, and overflow is "hidden" iff the menu is now open |
| Navigation.Closed | js/script.js:113-119 | `closeMobileMenu` on values: without the elements nothing changes; otherwise both lose `active`, no other class changes, and overflow is "" |
| Navigation.ToggleFlips | js/script.js:96-108 | toggling flips the menu, keeps both `active` classes in step and sets overflow to "hidden" iff open |
| Navigation.ToggleTwice | js/script.js:96-108 | two toggles restore the menu state |
| Navigation.CloseIdempotent | js/script.js:113-119 | closing leaves the menu closed with overflow "", keeps it well formed, is idempotent, and is a no-op on a closed menu |
| Navigation.AbsentElementsNoOp | js/script.js:96-119 | without hamburger or menu, toggle and close change nothing |
| Navigation.MobileMenu.constructor | js/script.js:12-13 | the page as loaded: a closed menu with overflow unset |
| Navigation.MobileMenu.ToggleMobileMenu | js/script.js:96-108 | new state is `Toggled(old state)`, and the well-formedness invariant is kept |
| Navigation.MobileMenu.CloseMobileMenu | js/script.js:113-119 | new state is `Closed(old state)`, and the invariant is kept |
| Navigation.MobileMenu.HandleOutsideClick | js/script.js:124-130 | closes only an open menu and only for a click outside both the menu and the hamburger |
| Navigation.MobileMenu.HandleResize | js/script.js:443-448 | a width above 768 always closes the menu; otherwise nothing changes |
| Navigation.HandleKeyboardNavigation | js/script.js:345-356 | Escape closes the menu only when it is open; Ctrl/Cmd+d toggles the theme, writes only its `theme` key and leaves a missing icon alone, and no other key touches the theme |
| Navigation.HiddenImpliesScrolled | js/script.js:146-157 | a hidden navbar is always a scrolled one; an event at the last position shows the navbar |
| Navigation.NavbarEffects.constructor | js/script.js:139-140 | `lastScrollY` starts at the scroll position at set-up |
| Navigation.NavbarEffects.OnScroll | js/script.js:142-160 | `scrolled` is set iff y > 50; the navbar is hidden iff y > lastY and y > 100; then lastY := y; other classes stay |
| ContactForm.IndexOf | js/script.js:202 | the first position of a character, or `None` iff it is absent |
| ContactForm.IsValidEmail | js/script.js:201-204 | an accepted address has at least five characters |
| ContactForm.ValidEmailIffPattern | js/script.js:202-203 | the computed check accepts exactly the strings matching `^[^\s@]+@[^\s@]+\.[^\s@]+$` |
| ContactForm.ValidEmailShape | js/script.js:202-203 | an accepted address has no whitespace and exactly one '@', which is not its first character |
| ContactForm.Validate | js/script.js:181-190 | "required" iff name, email or message is falsy; sent iff all three are present and the email matches the pattern |
| ContactForm.SubjectIgnored | js/script.js:177-190 | the subject never changes the outcome |
| ContactForm.RequiredBeforeEmail | js/script.js:181-186 | with name or message missing the outcome is "required", whatever the email is |
| ContactForm.NotificationFor | js/script.js:182-192 | a success notification iff the form was sent |
| ContactForm.Reset | js/script.js:193 | after `reset` the form would fail the required check |
| ContactForm.Clear | js/script.js:193 | a field becomes empty; a missing field stays missing |
| ContactForm.ContactFormHandler.constructor | js/script.js:170-178 | the form as filled in, with no notification shown |
| ContactForm.ContactFormHandler.HandleSubmit | js/script.js:170-194 | outcome is `Validate(fields)` with its notification; the form is reset only on success |
| Animations.GetCurrentPage | js/animations.js:70-77 | a non-home page's name occurs in the path, and no page tried before it occurs |
| Animations.EarlierPageWins | js/animations.js:72-75 | a path naming a page resolves to that page or an earlier one (about and projects give projects) |
| Animations.HomeIsDefault | js/animations.js:76 | home iff the path contains none of the four names |
| Animations.NameRoundTrip | js/animations.js:72-76 | every page's own name resolves back to that page |
| Animations.Element.constructor | js/animations.js:82-85 | an element with the given classes and text and no animation delay |
| Animations.First | js/animations.js:82 | `querySelector` is the first match, `None` iff there is none |
| Animations.AddClasses | js/animations.js:181-193 | every listed element gains exactly the added classes and every other element keeps its classes; delays and text unchanged |
| Animations.AddClassesWithDelay | js/animations.js:112-115 | element i gains exactly the classes and the delay `first + i * step` tenths; every other element keeps its classes and delay |
| Animations.AddScrollAnimation | js/animations.js:171-176 | element i gains `scroll-animate` and delay i tenths (i·0.1s) |
| Animations.AddSectionFadeIns | js/animations.js:131-135 | section i gains `animate-fade-in-up` and delay (i+1)·2 tenths, so even the first delay is non-zero |
| Animations.AddIfPresent | js/animations.js:87-89 | the `if (el)` guard: an existing element gains exactly the classes; with no element nothing changes |
| Animations.SetupHomeAnimations | js/animations.js:80-107 | every element gains exactly `PageClasses(Home)` (hero entrance classes, `scroll-animate` on the three section kinds) and ends with `PageDelay(Home)`; text unchanged |
| Animations.AddHeroEntrances | js/animations.js:87-101 | every element gains exactly its hero entrance classes (title, subtitle, description, image); delays and text unchanged |
| Animations.HeroEntrances | js/animations.js:87-101 | each existing hero part gets its fade-in class, and the subtitle, description and image their delay classes 1, 2, 3 |
| Animations.SetupProjectsAnimations | js/animations.js:110-120 | every element gains exactly `PageClasses(Projects)` (cards `scroll-animate` and `hover-lift`, headers and intros `scroll-animate`) and ends with `PageDelay(Projects)`; text unchanged |
| Animations.SetupAboutAnimations | js/animations.js:123-136 | every element gains exactly `PageClasses(About)` (first header and sections fade in) and ends with `PageDelay(About)`; text unchanged |
| Animations.SetupResumeAnimations | js/animations.js:139-152 | every element gains exactly `PageClasses(Resume)` (preview fades in, sections fade in up) and ends with `PageDelay(Resume)`; text unchanged |
| Animations.SetupContactAnimations | js/animations.js:155-168 | every element gains exactly `PageClasses(Contact)` (first header and sections fade in) and ends with `PageDelay(Contact)`; text unchanged |
| Animations.StaggerAt | js/animations.js:112-115 | in a list of distinct matches, match i gets the delay `first + i * step` |
| Animations.HomeDelays | js/animations.js:104-106 | on the home page a cta section has delay i, a skills or about section its own index unless a later loop reaches it, and every other element keeps its delay |
| Animations.ProjectsDelays | js/animations.js:112-119 | on the projects page each element has the index from the last of the three loops that reaches it; all others keep their delay |
| Animations.SectionDelays | js/animations.js:131-166 | on the about, resume and contact pages section i has delay (i+1)·0.2s, never zero, and every other element keeps its delay |
| Animations.SetupPageSpecificAnimations | js/animations.js:48-68 | returns `GetCurrentPage(path)`, and every element ends with exactly that page's setup applied: classes `PageClasses(page)` added, delay `PageDelay(page)`, text unchanged |
| Animations.SetupsStayInTargets | js/animations.js:48-194 | a page's setup adds no class and sets no delay outside that page's matches; the hover setup stays on buttons, cards and links |
| Animations.NoSetupAnimates | js/animations.js:80-194 | no page setup or hover setup adds `animate`; only the observer's callback does |
| Animations.SetupHoverEffects | js/animations.js:179-194 | every element gains exactly `HoverClasses` (buttons `hover-scale`, cards `hover-lift`, links `hover-glow`); delays and text unchanged |
| Animations.ScrollObserver.constructor | js/animations.js:42-44 | observes exactly the elements that carry `scroll-animate` when it is created |
| Animations.ScrollObserver.OnIntersect | js/animations.js:33-39 | a target gains `animate` iff some entry reports it in view; nothing is removed; a second intersection changes nothing |
| Animations.TypeWriter.constructor | js/animations.js:212-213 | the counter starts at 0 with the timer running |
| Animations.TypeWriter.Tick | js/animations.js:214-219 | after k ticks the element shows its start text plus `text[..k]`; the tick after the last character stops the timer |
| Animations.TypeWriter.Finish | js/animations.js:221-223 | the element loses `typewriter` |
| Animations.TypeWriter.RunToCompletion | js/animations.js:212-226 | the timer stops after exactly \|text\| character ticks plus one, and the element shows the whole text |
| Animations.SetupTypewriterEffect | js/animations.js:197-209 | set up iff a subtitle exists and the page is home; then the text is captured, the element emptied and tagged `typewriter` |
| Animations.RevealSubtitle | js/animations.js:197-226 | the whole reveal ends with the subtitle showing exactly its original text and without `typewriter`, its animation delay untouched |
| Animations.TagElements | js/animations.js:21-22 | the page's setup then the hover setup: classes `PageClasses(page) + HoverClasses` added, delay `PageDelay(page)`, text unchanged |
| Animations.SetupAnimations | js/animations.js:19-24 | the observer watches the elements matched before any tagging; every element gains exactly the page, hover and (for the home subtitle) `typewriter` classes, ends with `PageDelay(page)`, and only the subtitle's text changes (to ""); a returned typewriter is fresh, running, at character 0 and consistent with the subtitle |

## Left out

- Rendering is not modelled: `createChatbotHTML`, the innerHTML templates, `addDynamicStyles`, `scrollToBottom`, focus handling and console logging only change presentation. A message is its author and its text.
- `showNotification` (js/script.js:211-256) is reduced to the notification text and kind currently shown. Its styling, its slide-in and its five-second removal timer are not modelled.
- Timers are not modelled (`setTimeout`, `setInterval`, `debounce`, the 1–2 s reply delay, the 300 ms theme transition). The deferred reply is the explicit `Respond` step, the resize handler is modelled after its debounce, and the typewriter is driven by `Tick`.
- Chatbot.PersonalChatbot.Respond: the callback's statements are run in source order, but the host decides when the callback runs. The Enter-key path (js/chatbot.js:74-78) does not check the send button, and delays are random, so the model promises no alternation of user and bot messages and no reply order.
- `Math.random` is the `pick` parameter. The random reply delay is left out.
- `conversationHistory` (js/chatbot.js:8) is never written, so it is not part of the state.
- Text.Lower: `toLowerCase` is modelled on the ASCII letters only. Other characters are kept as they are, whereas the source also folds other scripts.
- Viewport geometry is left out: the observer's threshold and root margin, and `isInViewport` (floating-point rectangles). Whether a target is in view is an input of `OnIntersect`.
- Browser-only helpers are not part of this model: `formatDate` (a wrapper over `Intl.DateTimeFormat`), lazy loading, smooth scrolling, `initializeScrollAnimations`, and the unused `addAnimationClass` and `triggerAnimation`.
- Selector queries are not evaluated. Their results are inputs, fixed for the whole set-up. None of the classes the setups add is tested by a selector they query, so this is sound.
- Animation delays are tenths of a second in a `nat`. The CSS string `"0.30000000000000004s"` that JavaScript's floating point produces for `3 * 0.1` is not modelled.
- Theme.ThemeSwitcher.ToggleDarkMode: the 300 ms `body.style.transition` effect is left out.
- ContactForm.Reset: `form.reset()` restores default values; the form is assumed to have none, so every field becomes empty.
- Navigation.NavbarEffects.OnScroll: scroll positions are `real`, and the listener is registered once per page load.
- Three keywords can never decide an answer: "internship" of the career-goals rule, "email" of the contact rule and "tell me about" of the general rule (it contains "about" from the same rule). This is proved (`InternshipNeverReachesCareerGoals`, `ContactRuleNeverViaEmail`, `TellMeAboutRedundant`) rather than reported as a defect, because the source promises nothing about them.
- ChatbotExamples.GpaQuestionAnswered: stated about the rule that answers, not as the literal reply text, because the reply is the GPA rule's text by `Chatbot.GetResponse`.
- Chatbot.PersonalChatbot.ShowReply: the typing indicator is hidden before `getResponse` runs. Since `getResponse` is pure, computing it first changes no observable state.
- Animations.TypeWriter.Tick: a string is a sequence of Unicode code points, whereas JavaScript's `length` and `charAt` count UTF-16 code units (js/animations.js:215-216). For text outside the Basic Multilingual Plane the source takes more ticks and shows half a surrogate pair in between; the model does not capture this.
- Animations.TypeWriter.RunToCompletion: the tick count `|text| + 1` is in code points, not the UTF-16 units the source counts.
- Animations.RevealSubtitle: the same code-point counting; the end state (the original text, no `typewriter`) is the same either way.
