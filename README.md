# Window-cleaning site: gallery, FAQ search, contact form and comparison slider

A Dafny model of the interactive core of a small business website:

- **Gallery** (`gallery.dfy`, `src/components/gallery.tsx`). The static catalog of fifteen photos, built from the site's base URL. The category filter buttons and the grid they produce. The lightbox with its "previous" and "next" arrows. The single `loading` flag that every card shares. The component's state becomes the class `Gallery.GalleryView`. Navigation is also modelled by the pure functions `NextImage` and `PrevImage` over the JavaScript `findIndex` lookup.
- **FAQ search** (`faq.dfy`, `src/pages/faq.tsx`). The page's question data and `filteredSections`. A query that trims to nothing shows everything. Otherwise the query is lower-cased but not trimmed, each section keeps the questions whose lower-cased question or answer contains it, and sections left empty are dropped.
- **Contact form** (`contact.dfy`, `src/pages/contact.tsx`). The form data and its validation, including the unanchored e-mail pattern `/\S+@\S+\.\S+/`. The chat-webhook embed built from the form: title, colour, field labels, and the Service label made by splitting on `-`, capitalising and joining with spaces. The "multiple services" option, offered only for a quote. Editing a field and submitting become methods of `Contact.ContactPage`.
- **Before/after slider** (`slider.dfy`, `src/components/beforeandafter.tsx`). The divider position, clamped to 0..100 percent of the container. The drag flag and the start/move/end handlers for mouse and touch. The clip inset derived from the position, which ends where the handle is drawn.

Shared helpers:
- `text.dfy` holds the JavaScript string operations used on ASCII text: `toLowerCase`, first-letter `toUpperCase`, `trim` with `\s` white space, and `includes`.
- `seqs.dfy` holds `Array.prototype.filter` and `map`.
- `wrappers.dfy` holds an `Option` type.

Two behaviours of the code are worth knowing:
- Lightbox navigation steps through the full catalog, not the filtered grid. The open image is looked up with `galleryImages.findIndex` and the arrows go to its catalog neighbour. So under "Christmas Lights", "previous" from the first light photo opens a pressure-washing photo (`Gallery.FilterScenario`), and "next" from image 3 opens image 13, not image 4 (`Gallery.NextFromThreeIsThirteen`).
- A "multiple" service chosen for a quote survives switching back to a general contact, and is then sent as "Multiple" (`Contact.MultipleSurvivesSwitch`).

The slider's only state is `position` and `isDragging`; it has no image preloading.

## Model

| member | source | states |
|---|---|---|
| Gallery.CatalogIdSequence | src/components/gallery.tsx:22-135 | the catalog lists ids 1,2,3,13,14,15,4,…,12 in that order |
| Gallery.CatalogIds | src/components/gallery.tsx:22-135 | no id appears twice in the catalog |
| Gallery.NextFromThreeIsThirteen | src/components/gallery.tsx:22-65 | image 3 is followed in the catalog by image 13, so "next" from 3 opens 13 |
| Gallery.FilterIsBlock | src/components/gallery.tsx:22-150 | under any filter but "All" the grid is exactly that category's block of photos in catalog order (six window, three gutter, three pressure-washing or three light photos), and empty for a string naming no category |
| Gallery.ChristmasLightsFilter | src/components/gallery.tsx:113-150 | the "Christmas Lights" grid shows ids 10, 11, 12 and no others |
| Gallery.GutterCleaningFilter | src/components/gallery.tsx:67-150 | the "Gutter Cleaning" grid shows ids 4, 5, 6 in catalog order, and "All" shows all 15 images |
| Gallery.FilteredImagesSpec | src/components/gallery.tsx:147-150 | "All" shows the catalog unchanged; any other filter shows exactly the entries of that category, in catalog order, as many as there are |
| Gallery.FilteredFromCatalog | src/components/gallery.tsx:250-254 | every card in the grid is a catalog entry, whatever the filter |
| Gallery.FindIndex | src/components/gallery.tsx:157 | `findIndex` gives the first position holding the id, or -1 when no entry has it |
| Gallery.FindIndexOfEntry | src/components/gallery.tsx:157 | with unique ids, looking up an entry's id finds that entry's position |
| Gallery.NextAt | src/components/gallery.tsx:159-163 | "next" from position i opens entry i+1; at the last entry it does nothing |
| Gallery.PrevAt | src/components/gallery.tsx:165-169 | "previous" from position i opens entry i-1; at the first entry it does nothing |
| Gallery.PrevUndoesNext | src/components/gallery.tsx:157-169 | a step forward followed by a step back returns to the open image, and the other way round |
| Gallery.ArrowsMatchMoves | src/components/gallery.tsx:188-222 | an arrow is drawn exactly when clicking it opens an image, and for a catalog entry that image is a different one |
| Gallery.NavigationFromOutside | src/components/gallery.tsx:157-169 | an image whose id is missing gets index -1, so "next" opens the first entry and "previous" does nothing |
| Gallery.FilterScenario | src/components/gallery.tsx:147-169 | under "Window Cleaning", next from the third card opens image 13; under "Christmas Lights", previous from the first card opens image 9, which lies outside that category |
| Gallery.GalleryView.constructor | src/components/gallery.tsx:17-145 | the lightbox starts closed, the shared flag starts loading, the filter starts at "All", and the catalog is the site's own |
| Gallery.GalleryView.SetFilter | src/components/gallery.tsx:232-235 | a filter button sets only the filter; an open image stays open |
| Gallery.GalleryView.OpenCard | src/components/gallery.tsx:250-254 | clicking card k opens exactly the k-th image of the current grid |
| Gallery.GalleryView.Close | src/components/gallery.tsx:284-285 | closing empties the selection and changes nothing else |
| Gallery.GalleryView.Next | src/components/gallery.tsx:159-163 | the selection becomes the catalog's next entry when there is one and stays otherwise |
| Gallery.GalleryView.Prev | src/components/gallery.tsx:165-169 | the selection becomes the catalog's previous entry when there is one and stays otherwise |
| Gallery.GalleryView.ImageLoaded | src/components/gallery.tsx:152-154 | one image's load clears the single flag shared by all cards |
| Faq.MatchesQueryIff | src/pages/faq.tsx:148-152 | an item passes the test iff the lower-cased query occurs in its lower-cased question or answer |
| Faq.BlankQueryShowsAll | src/pages/faq.tsx:142 | a query of white space only, the empty query included, shows the data unchanged |
| Faq.ShownItemsMatch | src/pages/faq.tsx:144-154 | every question shown for a non-blank query contains the query, ignoring case |
| Faq.MatchingItemsShown | src/pages/faq.tsx:144-154 | every matching question is shown, under its own section's category |
| Faq.NoEmptySectionShown | src/pages/faq.tsx:154 | a non-blank query never shows a section without questions |
| Faq.OrderKept | src/pages/faq.tsx:145-154 | shown sections keep data order, and each keeps its category and its questions' order |
| Faq.NoResultsIff | src/pages/faq.tsx:174-179 | the "no questions found" message shows for a non-blank query iff no question matches; for a blank query, only if there is no data |
| Faq.FaqDataShowsNoEmptySection | src/pages/faq.tsx:20-154 | with the page's own data, no query shows a section without questions |
| Faq.QueryIsNotTrimmed | src/pages/faq.tsx:142-144 | surrounding spaces count in the search: " gutters" misses a question that "gutters" finds |
| Text.BlankIffAllSpace | src/pages/contact.tsx:33 | `!s.trim()` holds exactly when every character is white space |
| Text.IncludesIff | src/pages/faq.tsx:150-151 | `includes` succeeds iff the text occurs at some position |
| Seqs.Filter | src/components/gallery.tsx:150 | `filter` keeps exactly the elements that pass, never more than the input holds |
| Seqs.FilterIsSubsequence | src/components/gallery.tsx:150 | `filter` keeps the input's order |
| Seqs.FilterLength | src/components/gallery.tsx:150 | `filter`'s result is as long as the number of passing elements |
| Contact.WithField | src/pages/contact.tsx:157-161 | editing one input sets that field and leaves every other field as it was |
| Contact.EmailPatternIff | src/pages/contact.tsx:39 | the shortest-match test succeeds iff the pattern matches some span of the string |
| Contact.EmailPatternUnanchored | src/pages/contact.tsx:39 | text before or after a match does not undo it |
| Contact.EmailLikeIsNotBlank | src/pages/contact.tsx:37-41 | a string the pattern matches is never blank, so the two e-mail messages never conflict |
| Contact.EmailPatternExamples | src/pages/contact.tsx:39 | "a@b.c" and " jo@mail.example.com " pass; "a@b", "a @b.c" and "a@.c" fail |
| Contact.BuildErrors | src/pages/contact.tsx:31-49 | the step-by-step construction of `newErrors` produces the error record validation specifies |
| Contact.ErrorsForSpec | src/pages/contact.tsx:33-49 | name, phone and message are flagged iff white space only; e-mail is "required" when blank and "invalid" when not blank but unmatched; service and request type never are |
| Contact.ValidIff | src/pages/contact.tsx:30-53 | the form is valid iff name, phone and message are non-blank and the e-mail matches the pattern |
| Contact.InitialFormErrors | src/pages/contact.tsx:17-49 | the initial form gets all four "required" messages |
| Contact.SplitJoinRoundTrip | src/pages/contact.tsx:85-86 | splitting on "-" and joining with "-" restores the value, and no piece holds a dash |
| Contact.ServiceLabelCharwise | src/pages/contact.tsx:84-88 | the Service label is as long as the value; each dash becomes a space, and only the first letter and letters after a dash are upper-cased |
| Contact.WindowCleaningLabel | src/pages/contact.tsx:84-88 | "window-cleaning" is reported as "Window Cleaning" |
| Contact.ChristmasLightsLabel | src/pages/contact.tsx:84-88 | "christmas-lights" is reported as "Christmas Lights" |
| Contact.RequestTypeExamples | src/pages/contact.tsx:58-95 | "quote" gives "Quote", a blue embed and the quote title; "contact" gives "Contact", a purple embed and the contact-form title |
| Contact.TitleAgreesWithColor | src/pages/contact.tsx:58-65 | the blue colour goes with the quote title and only with it |
| Contact.QuoteMessageExample | src/pages/contact.tsx:60-108 | a window-cleaning quote is sent with the quote title and colour, "Window Cleaning", "Quote", and the name and message untouched |
| Contact.MultipleOnlyForQuote | src/pages/contact.tsx:359-370 | "multiple" is offered iff the request type is "quote"; "window-cleaning" is always offered |
| Contact.MultipleSurvivesSwitch | src/pages/contact.tsx:157-161 | switching a quote with "multiple" back to contact keeps "multiple", although the list no longer offers it |
| Contact.ContactPage.constructor | src/pages/contact.tsx:17-28 | the page starts with the initial form, no errors, not submitted and not sending |
| Contact.ContactPage.ValidateForm | src/pages/contact.tsx:30-53 | the whole error record is replaced by the one for the current data; the result is true iff it is empty |
| Contact.ContactPage.HandleInputChange | src/pages/contact.tsx:152-168 | the field takes the value, loses its error, and nothing else changes |
| Contact.ContactPage.HandleSubmit | src/pages/contact.tsx:128-150 | only a valid form is sent, built from the data as it was; on success the form resets and the thank-you view shows; on failure the data stays; sending is over on return |
| Contact.ContactPage.SendAnother | src/pages/contact.tsx:228-229 | "Send Another Message" leaves the thank-you view |
| Slider.PositionFor | src/components/beforeandafter.tsx:15-17 | the position always lies in 0..100; it is 0 left of the container and 100 right of it |
| Slider.PositionInside | src/components/beforeandafter.tsx:15-17 | inside the container the position is the pointer's offset in percent of the width |
| Slider.PositionMonotone | src/components/beforeandafter.tsx:27-29 | moving the pointer right never moves the divider left |
| Slider.QuarterWay | src/components/beforeandafter.tsx:15-17 | a pointer a quarter of the way across puts the divider at 25 |
| Slider.ClipInset | src/components/beforeandafter.tsx:80-86 | the right-hand clip inset is in 0..100 and adds up with the position to 100, so the clip ends where the handle is drawn |
| Slider.EventRouting | src/components/beforeandafter.tsx:39-69 | down and touch-start reach the start handler, the two moves reach move, and up, leave, touch-end and touch-cancel reach end |
| Slider.DragScenario | src/components/beforeandafter.tsx:9-69 | a stray move leaves 50; a press a quarter across gives 25; leaving keeps 25; a later move is ignored |
| Slider.BeforeAfterSlider.constructor | src/components/beforeandafter.tsx:10-11 | the divider starts at 50 with no drag in progress |
| Slider.BeforeAfterSlider.HandleStart | src/components/beforeandafter.tsx:13-22 | a press moves the divider to the pointer and starts a drag |
| Slider.BeforeAfterSlider.HandleMove | src/components/beforeandafter.tsx:24-33 | a move follows the pointer only during a drag |
| Slider.BeforeAfterSlider.HandleEnd | src/components/beforeandafter.tsx:35-37 | ending a drag keeps the divider where it is |
| Slider.BeforeAfterSlider.Dispatch | src/components/beforeandafter.tsx:39-69 | each DOM event changes the state as its handler does, and the position stays within 0..100 |

## Left out

- Sending to the webhook (`fetch`), the `alert` on failure and the browser's formatting of the timestamp. The webhook's verdict is the boolean `sendSucceeds` and the timestamp is a string parameter of `Contact.ContactPage.HandleSubmit`.
- The JSON wrapper `{ embeds: [ … ] }` and its serialisation. The model builds the single `Contact.Embed` inside it.
- Contact.ContactPage.HandleSubmit: does not expose `isSubmitting` being true while the send is awaited, or the disabled submit button and "Sending..." text tied to it. The method runs the send to completion in one step, so only the final `isSubmitting == false` is stated.
- Contact.ContactPage.HandleInputChange: `[name]: undefined` is modelled as removing the key from the error map. Every reader of the record tests the entry's truthiness, so the two are indistinguishable. The source skips the update when the field has no error, which the model's key removal also leaves unchanged.
- Strings are ASCII. `toLowerCase`, `toUpperCase` and `\s` are modelled on ASCII letters and the six ASCII white-space characters. Unicode case mapping and Unicode white space are not modelled.
- Slider.PositionFor: positions are exact reals, not IEEE doubles, and the container width is required to be positive. A zero-width container, where the source divides by zero and gets NaN or an infinity, is not modelled.
- The slider's `useCallback` memoisation. The model reads `isDragging` as current when the move handler runs, which is what the re-created callback does after each render.
- The rendering itself: markup, CSS classes, icons, routing, the header, footer, home, review and status pages.
- Gallery.GalleryView.SetFilter: takes only the five category names the buttons offer. Other strings cannot reach `setFilter` from the page.

