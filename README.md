# Photo blog: editor, publishing and display rules in Dafny

A model of the behaviour of a personal photography blog, written in React over a hosted
backend. Only the parts with rules that can be stated exactly are modelled:

- **Image insertion in the post editor** (`RichTextEditor`). The dialog's width and wrap
  selections become the image's style, as an ordered sequence of CSS declarations. The
  editor's dialog state is a class, and the document is the sequence of edits applied to
  it. The upload path and the URL path build the style from the same expression
  (`src/components/RichTextEditor.tsx:84-89` and `:107-112`), so the model writes it once, as
  `Style`, and both methods use it.
- **The upload widget** (`ImageUpload`). It has the media-type gate, drop and file-select
  with first-file selection, and the drag and uploading flags. A started read is held as
  pending until its `onload` delivers a data URL to the editor.
- **Post publication** (`Posts`, `NewPost`, `EditPost`, `Admin`). The backend is a map
  from id to post. Create, edit-save and the dashboard toggle each send their own
  payload. Whether a backend call fails, the user the auth service returns, the new
  row's id and the clock's `now` are all parameters.
- **Display rules** (`Header`, `BlogPost`, `BlogCard`). These cover theme resolution and
  the theme toggle, the in-place sort of a post's images by display order, alt text and
  the shared EXIF flag, and the feed card's two-digit number.

A rule of the as-written code: create and the dashboard toggle always leave a post
dated exactly when it is published. Edit-save sends the date according to the published
flag the edit page loaded. While that flag is still the stored one, the save breaks the
rule in one case only, when it saves a published post as a draft: the post then stays
dated while unpublished (`EditPost.SaveKeepsDatingIff`, `EditPost.DraftKeepsDate`). When
the flag is stale, because the dashboard unpublished the post after the edit page loaded
it, saving it as published leaves it published with no date
(`EditPost.StaleFlagDropsDate`).

JavaScript truthiness is written out. An empty width or wrap selection acts as the
default, an empty saved theme acts as no saved theme, and an empty caption, excerpt or
image URL is not rendered.

## Model

| member | source | states |
|---|---|---|
| `RichTextEditor.Style` | src/components/RichTextEditor.tsx:84-89 | the style has five declarations: width part, `height: auto;`, the two wrap declarations, and `border-radius: 0.5rem;` last |
| `RichTextEditor.StyleCases` | src/components/RichTextEditor.tsx:81-87 | width `auto` gives `max-width: 100%;` and any other width `w` gives `width: w;`; wrap `none` centres a block, `left` floats left with margin `0 1rem 1rem 0`, any other `v` floats `v` with margin `0 0 1rem 1rem` |
| `RichTextEditor.LayoutOfStyle` | src/components/RichTextEditor.tsx:81-89 | the selection can be read back from the style |
| `RichTextEditor.StyleInjective` | src/components/RichTextEditor.tsx:273-298 | different width/wrap choices from the dialog's selects give different styles |
| `RichTextEditor.CssTextFrame` | src/components/RichTextEditor.tsx:84-89 | the trimmed style text starts with the width part and ends with `border-radius: 0.5rem;` |
| `RichTextEditor.HalfWidthFloatLeft` | src/components/RichTextEditor.tsx:84-89 | width 50% with left wrap gives `width: 50%;`, `height: auto;`, `float: left;`, `margin: 0 1rem 1rem 0;`, `border-radius: 0.5rem;` |
| `RichTextEditor.Editor.constructor` | src/components/RichTextEditor.tsx:40-43 | dialog closed, URL empty, width `auto`, wrap `none` |
| `RichTextEditor.Editor.SetDialogOpen` | src/components/RichTextEditor.tsx:250 | the dialog's open flag follows the dialog |
| `RichTextEditor.Editor.SetImageWidth` | src/components/RichTextEditor.tsx:273 | the width select sets the width |
| `RichTextEditor.Editor.SetImageFloat` | src/components/RichTextEditor.tsx:291 | the wrap select sets the wrap |
| `RichTextEditor.Editor.SetImageUrl` | src/components/RichTextEditor.tsx:315 | the URL input sets the URL |
| `RichTextEditor.Editor.InsertImage` | src/components/RichTextEditor.tsx:91-94 | appends an image with the current selection's style; every image in the document keeps a well-formed style |
| `RichTextEditor.Editor.AddImageFromUpload` | src/components/RichTextEditor.tsx:79-100 | with an editor: inserts the given source verbatim with the selection's style, closes the dialog, resets width and wrap, and leaves the URL alone; without one: nothing changes |
| `RichTextEditor.Editor.AddImageFromUrl` | src/components/RichTextEditor.tsx:102-124 | an empty URL changes nothing; otherwise inserts the URL verbatim, clears the URL, closes the dialog, resets width and wrap |
| `RichTextEditor.Editor.AddLink` | src/components/RichTextEditor.tsx:126-131 | a link is applied only for a non-null, non-empty prompted URL |
| `ImageUpload.Split` | src/components/ImageUpload.tsx:32 | `split('.')` gives at least one piece and no piece contains a dot |
| `ImageUpload.JoinSplit` | src/components/ImageUpload.tsx:32 | joining the pieces with dots gives the name back |
| `ImageUpload.Extension` | src/components/ImageUpload.tsx:32 | the extension has no dot, is a suffix of the name, is preceded by a dot unless it is the whole name, and is the whole name when there is no dot |
| `ImageUpload.IsImage` | src/components/ImageUpload.tsx:17 | a file passes the gate exactly when its media type is `image/` followed by a subtype |
| `ImageUpload.Uploader.constructor` | src/components/ImageUpload.tsx:11-12 | not dragging, not uploading, nothing pending |
| `ImageUpload.Uploader.HandleFile` | src/components/ImageUpload.tsx:16-59 | a non-`image/` type is refused and nothing changes; otherwise one read is started (or fails) and `uploading` is false again on return |
| `ImageUpload.Uploader.ReadLoaded` | src/components/ImageUpload.tsx:37-48 | a finished read hands its result to the editor unchanged, once per started read; with an editor, the dialog closes and width and wrap are reset; the URL field is untouched; without an editor nothing in it changes |
| `ImageUpload.Uploader.DragOver` | src/components/ImageUpload.tsx:61-64 | dragging after drag-over |
| `ImageUpload.Uploader.DragLeave` | src/components/ImageUpload.tsx:66-69 | not dragging after drag-leave |
| `ImageUpload.Uploader.Drop` | src/components/ImageUpload.tsx:71-79 | not dragging after a drop; an empty drop does nothing; otherwise only the first file is handled |
| `ImageUpload.Uploader.FileSelect` | src/components/ImageUpload.tsx:81-86 | a missing or empty file list does nothing; otherwise only the first file is handled |
| `Posts.Apply` | src/pages/EditPost.tsx:67-73 | an update writes each key it carries and keeps each key left `undefined`; the author never changes |
| `Posts.Store.Insert` | src/pages/NewPost.tsx:57-68 | the row is added under a fresh id, or nothing changes |
| `Posts.Store.Update` | src/pages/EditPost.tsx:65-74 | the payload is applied to the row with the id; keys left `undefined` keep their value |
| `Posts.Store.Delete` | src/pages/Admin.tsx:52-55 | the row is removed on success, and nothing changes on error |
| `NewPost.NewRecord` | src/pages/NewPost.tsx:59-66 | the inserted record is dated exactly when published, dated `now` when published, and has the user as author and the fields verbatim |
| `NewPost.Page.constructor` | src/pages/NewPost.tsx:16-19 | empty form, not loading |
| `NewPost.Page.SetFields` | src/pages/NewPost.tsx:110-130 | the inputs set title, excerpt and content |
| `NewPost.Page.HandleSave` | src/pages/NewPost.tsx:34-85 | empty title or content: nothing changes; no user: no insert; otherwise the record is inserted; loading ends false on every path that raised it; the move to `/admin` happens only on success |
| `EditPost.EditPatch` | src/pages/EditPost.tsx:67-73 | the save writes the three form fields and the requested flag; it writes the date, as `now`, exactly when a draft is being published |
| `EditPost.EditSaveEffect` | src/pages/EditPost.tsx:67-73 | the save writes title, excerpt and content verbatim and sets published to the requested value; the date becomes `now` only when a draft is published, and is otherwise kept |
| `EditPost.DraftKeepsDate` | src/pages/EditPost.tsx:72 | saving a published post as a draft unpublishes it, keeps its date, and breaks the dated-iff-published rule |
| `EditPost.RepublishKeepsDate` | src/pages/EditPost.tsx:72 | re-publishing a published post keeps its original date |
| `EditPost.SaveKeepsDatingIff` | src/pages/EditPost.tsx:72 | for a post that is dated exactly when published, and with the loaded flag equal to the stored one, the save keeps that rule if and only if it does not unpublish the post |
| `EditPost.StaleFlagDropsDate` | src/pages/EditPost.tsx:71-72 | if the dashboard unpublishes a post after the edit page loaded it as published, saving it as published leaves it published with no date |
| `EditPost.Page.constructor` | src/pages/EditPost.tsx:16-21 | empty form, loading, not saving |
| `EditPost.Page.Load` | src/pages/EditPost.tsx:37-51 | a found post fills the form and the loaded published flag; loading ends |
| `EditPost.Page.SetFields` | src/pages/EditPost.tsx:126-146 | the inputs set title, excerpt and content |
| `EditPost.Page.HandleSave` | src/pages/EditPost.tsx:53-91 | empty title or content: nothing changes; otherwise the update is sent, saving ends false, and the move to `/admin` happens only on success |
| `Admin.Listing` | src/pages/Admin.tsx:37-47 | the fetched rows are stored posts whose ids occur in `order` in the same relative order; each stored post in `order` appears; when every id of `order` is stored, row `i` is the post `order[i]` |
| `Admin.ListsEveryPostOnce` | src/pages/Admin.tsx:38-44 | when `order` lists each stored id exactly once, as the query answers, every stored post is listed, and no post twice |
| `Admin.TogglePatch` | src/pages/Admin.tsx:75-78 | the toggle touches only the flag and the date: the flag is negated, and the date is `now` when publishing and `null` when unpublishing |
| `Admin.ToggleDates` | src/pages/Admin.tsx:75-78 | the toggle writes the negated flag, leaves the post dated exactly when published (dated `now` when published), and keeps the other fields |
| `Admin.ToggleTwice` | src/pages/Admin.tsx:76 | toggling twice restores the published flag |
| `Admin.StatusLabel` | src/pages/Admin.tsx:134-136 | the badge reads `Published` exactly for a published post and `Draft` exactly for a draft |
| `Admin.ToggleLabel` | src/pages/Admin.tsx:146 | the button reads `Unpublish` exactly for a published post and `Publish` exactly for a draft |
| `Admin.LabelsAgree` | src/pages/Admin.tsx:134-146 | the status label is `Published` or `Draft` and the button `Unpublish` or `Publish`, according to the flag; the badge says `Draft` exactly when the button offers `Publish` |
| `Admin.Dashboard.constructor` | src/pages/Admin.tsx:20-21 | no rows, loading |
| `Admin.Dashboard.FetchPosts` | src/pages/Admin.tsx:37-47 | given the query's answer `order`, on success row `i` is the stored post `order[i]`; loading ends either way |
| `Admin.Dashboard.HandleDelete` | src/pages/Admin.tsx:49-70 | nothing happens unless confirmed; on error nothing changes; on success the row is removed and the list fetched once |
| `Admin.Dashboard.TogglePublish` | src/pages/Admin.tsx:72-94 | the toggle payload is applied; on error the dashboard is unchanged; on success the toast is named after the new state and the list is fetched once |
| `Admin.DeletedNotListed` | src/pages/Admin.tsx:57-69 | after a delete, the refreshed listing does not contain the deleted id |
| `Header.ShouldBeDark` | src/components/Header.tsx:16 | a saved `dark` gives dark, any other non-empty saved theme gives light, and a missing or empty one follows the system preference |
| `Header.StoredTheme` | src/components/Header.tsx:36 | the value the toggle stores is non-empty and resolves back to the state it stored, whatever the system prefers |
| `Header.Nav` | src/components/Header.tsx:51-81 | the Admin link and the logout button are present exactly when a user is signed in; Blog, About and the theme toggle always are |
| `Header.Header.constructor` | src/components/Header.tsx:9-10 | light, no user |
| `Header.Header.ResolveTheme` | src/components/Header.tsx:14-19 | the state and the root element's class follow the resolved theme |
| `Header.Header.SetUser` | src/components/Header.tsx:21-27 | the user follows the session |
| `Header.Header.ToggleTheme` | src/components/Header.tsx:32-37 | the state flips, the class follows, and the stored value resolves to the new state for any system preference |
| `Header.Header.Logout` | src/components/Header.tsx:39-42 | logging out moves to `/` |
| `Header.Header.Items` | src/components/Header.tsx:58-80 | the user-only entries appear exactly when a user is present |
| `BlogPost.SortByDisplayOrder` | src/pages/BlogPost.tsx:52-54 | in place, the images end non-decreasing by display order and are a permutation of the fetched ones |
| `BlogPost.InsertDown` | src/pages/BlogPost.tsx:53 | one insertion step extends the sorted prefix by one and permutes the array |
| `BlogPost.CaptionText` | src/pages/BlogPost.tsx:122-126 | a caption is shown exactly when it is present and non-empty, and then verbatim |
| `BlogPost.Alt` | src/pages/BlogPost.tsx:118 | the alt text is the caption when it is non-empty, otherwise `Photo ` followed by the position from one; it is never empty |
| `BlogPost.AltNumbersPhoto` | src/pages/BlogPost.tsx:118 | the number in the fallback alt text reads back as the position from one |
| `BlogPost.RenderImage` | src/pages/BlogPost.tsx:113-142 | an image shows its URL, its alt text and its caption; it has a toggle exactly when it has EXIF, reading `Hide` or `Show technical details` by the flag; its details are shown exactly while the flag is set |
| `BlogPost.ImageSection` | src/pages/BlogPost.tsx:111-145 | the section is shown only for present, non-empty images; one entry per image, with its URL, alt and caption; a toggle for an image exactly when it has EXIF; its EXIF details shown exactly when the flag is set |
| `BlogPost.ToggleFlipsEvery` | src/pages/BlogPost.tsx:127-139 | flipping the one flag flips the details of every image that has EXIF and shows none for the others |
| `BlogPost.Page.constructor` | src/pages/BlogPost.tsx:24-26 | no post, loading, details hidden |
| `BlogPost.Page.FetchPost` | src/pages/BlogPost.tsx:32-58 | a found post's image array is sorted in place before the post is stored; absent images are not sorted; loading ends |
| `BlogPost.Page.ToggleExif` | src/pages/BlogPost.tsx:130 | the button flips the shared flag |
| `BlogPost.Page.Images` | src/pages/BlogPost.tsx:111 | the page shows an image section exactly when its post has non-empty images |
| `Decimal.FromNat` | src/components/BlogCard.tsx:19 | `String(n)` is a non-empty numeral, one digit exactly below 10, without a leading zero |
| `Decimal.ToNatFromNat` | src/components/BlogCard.tsx:19 | reading back `String(n)` gives `n` |
| `BlogCard.PadStart` | src/components/BlogCard.tsx:19 | `padStart` reaches the target length by prefixing the fill character and keeps the string as a suffix |
| `BlogCard.Label` | src/components/BlogCard.tsx:19 | the card number is a numeral of at least two digits |
| `BlogCard.LabelSingleDigit` | src/components/BlogCard.tsx:19 | below ten, the number is `0` followed by the digit |
| `BlogCard.LabelManyDigits` | src/components/BlogCard.tsx:19 | from ten on, the number is the unpadded decimal |
| `BlogCard.LabelValue` | src/components/BlogCard.tsx:19 | the number reads back as the position from one |
| `BlogCard.Render` | src/components/BlogCard.tsx:13-53 | the card links to `/blog/` plus the id; the image is shown exactly for a given non-empty URL; the excerpt exactly when non-empty |

## Left out

- Backend calls (`supabase` queries, auth session, `getUser`, `signOut`, the auth-state listener) and navigation: each is reduced to a parameter (success, returned user, new id) or to a `location` field.
- Server-side ordering of listings by date: the order is the parameter `order` of `Admin.Listing`. The dashboard's methods require it to list every stored id once, as the query's answer does.
- The `checkAuth` redirects to `/auth` on the admin, new-post and edit pages: auth glue.
- The toolbar commands (bold, italic, headings, lists, quote, alignment, undo/redo), `isActive`, and HTML serialisation and parsing: these are the editor library's behaviour, which is not part of this model.
- Whether `setLink` marks an empty selection: editor-library behaviour.
- The `FileReader` data-URL encoding: the read's result is an opaque string that `ReadLoaded` receives.
- The unused file name built from `Date.now()` and `Math.random()` (ImageUpload.tsx:30-33): only its extension part is modelled.
- `ImageUpload.Uploader.HandleFile`: the exception the `catch` receives is a parameter; the toasts are not modelled.
- `ImageUpload.Uploader.ReadLoaded`: it uses the editor's width and wrap at the time the read finishes. The source's callback is a React closure, so it uses the values from the render at the time the file was dropped.
- `BlogPost.SortByDisplayOrder`: does not prove that the sort is stable (JavaScript's sort is), only that it is ordered and a permutation. The comparator assumes a numeric `display_order` for every image.
- `BlogPost.ImageSection`: EXIF data is either present or absent. The source also hides a stored `exif_data` that is falsy JSON (`false`, `0`, `""`), which the model would show.
- `RichTextEditor.Editor.constructor`: it requires the opening document to be well-styled, so the invariant that every image has a style of the form the dialog produces covers only images the dialog and the upload widget insert. A post's stored HTML or pasted images can carry any style.
- Dates: `published_at` is an opaque timestamp string; date-fns formatting is not modelled.
- `localStorage`, `matchMedia`, the root element's class list, `window.prompt` and `confirm`: their values are parameters or fields of `Header.Browser`.
- Toast messages, except the toggle's title: UI only.
- The exact whitespace inside the style template literal: a style is a sequence of declarations, and one space joins them in `CssText`.
- A stored excerpt that is `null`, which EditPost reads as `""`: excerpts are strings here.
- `BlogCard.Label`: the index is a natural number, because the feed passes a list position.
- The static pages (index, about), the newsletter footer, the feed page's fetch-and-render, and all JSX layout and styling.
