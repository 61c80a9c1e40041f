# Meme generator widget: a Dafny model

This project models the state machine of the `MemeGenerator` React component
(`components/meme-generator.tsx`). The component fetches a catalog of meme
templates. It shows them in a strip four at a time and reveals four more on
each "Load More". The user can select a template, type a caption and drag the
caption over the image.

- `catalog.dfy`, module `Catalog`: the `Meme` and `Position` values and the
  pure side of pagination. `Take` is JavaScript's `slice(0, end)`.
  `NextVisible` is the expression `memes.slice(0, visibleMemes.length + memesPerLoad)`.
  `Pages(memes, n)` is the strip after the catalog arrived and `n` "Load More"
  presses. The lemmas state what pagination promises.
- `widget.dfy`, module `Widget`: the class `MemeGenerator` has one field per
  state hook and one method per event handler. Each method's `modifies` clause
  names only the fields that handler sets, so "changes nothing else" is checked
  by the frame. `Valid()` says the strip is a prefix of the catalog. It also
  says the strip equals `Pages(memes, loadMores)`, where the ghost field
  `loadMores` counts presses. `Render` gives the parts of the output that depend
  on the state: spinner or strip, the "Load More" button and the customization
  panel. Two client methods, `FiveTemplateScenario` and `CustomizeScenario`,
  walk through the component's intended use and assert the states.

Every event handler is treated as one atomic update. React batches the
`setMoreLoading(true)` / `setMoreLoading(false)` pair in `loadMoreMemes`, and
the model ends that handler with `moreLoading` false. Drag offsets are
whole numbers in the model. Only replacement of the offset is observable, so
no arithmetic is done on them.

The code has no error handling around the catalog fetch. If the fetch fails,
`loading` stays true and the spinner stays on screen. The model follows the
code: the only completion transition is `CatalogArrived`, and there is no
failure transition that clears `loading`. A hardened design would add one.

## Model

| member | source | states |
|---|---|---|
| Widget.MemeGenerator.constructor | components/meme-generator.tsx:28-34 | Initial state: empty catalog and strip, no selection, empty caption, offset (0, 0), `loading` true, `moreLoading` false; the spinner is shown and the panel is not |
| Widget.MemeGenerator.StartFetch | components/meme-generator.tsx:41 | The fetch start sets `loading`; nothing else changes |
| Widget.MemeGenerator.CatalogArrived | components/meme-generator.tsx:44-46 | Stores the catalog, makes the strip its first `min(4, n)` templates in order, clears `loading`; selection, caption, offset and `moreLoading` are untouched |
| Catalog.Take | components/meme-generator.tsx:54 | JavaScript `slice(0, end)`: the result has length min(`end`, length of `s`) and is a prefix of `s`, so taking past the end yields all of `s` |
| Widget.MemeGenerator.LoadMoreMemes | components/meme-generator.tsx:52-57 | The strip grows to length min(old length + 4, catalog length) and to min(4 · (presses + 1), catalog length); the old strip stays in front and the new one is a prefix of the catalog; at the end it is unchanged; `moreLoading` ends false; catalog, selection, caption and offset are untouched |
| Catalog.NextVisible | components/meme-generator.tsx:54 | The next strip has length min(old length + 4, catalog length) and is a prefix of the catalog; when the old strip was a prefix, it stays in front of the new one |
| Catalog.LoadMoreAtEnd | components/meme-generator.tsx:54 | When the whole catalog is visible, revealing another page leaves the strip unchanged |
| Catalog.LoadMoreChangesIff | components/meme-generator.tsx:54 | Revealing a page changes the strip if and only if some catalog entry is still hidden |
| Catalog.PagesIsTake | components/meme-generator.tsx:36-54 | After the catalog arrives and `n` presses, the strip is exactly the first min(4 · (n + 1), catalog length) templates of the catalog, in order |
| Catalog.PagesGrow | components/meme-generator.tsx:45-54 | The strip never shrinks or reorders: the strip after `n` presses is a prefix of the strip after any `m >= n` presses |
| Widget.LoadMoreButtonIff | components/meme-generator.tsx:84-122 | While the strip is a prefix of the catalog, the "Load More" button is shown exactly when the catalog is loaded and pressing it would reveal something |
| Widget.PanelIff | components/meme-generator.tsx:126 | The customization panel is shown if and only if a template is selected, and it shows that template |
| Widget.MemeGenerator.SelectMeme | components/meme-generator.tsx:94 | Selecting a template sets the selection to exactly that template and brings up its panel; nothing else changes |
| Widget.MemeGenerator.DragStop | components/meme-generator.tsx:145-146 | The offset becomes the reported `(x, y)` without clamping, whatever it was before, so repeating the call is idempotent; nothing else changes |
| Widget.MemeGenerator.TextChange | components/meme-generator.tsx:166 | The caption becomes the input string unchanged (empty, whitespace-only or multi-line alike); nothing else changes |

## Left out

- The HTTP request and the JSON decoding of the catalog (lines 42-43) are network I/O. Only their completion is modelled, as `CatalogArrived` taking the decoded list.
- Export and download (lines 60-68) are left out. They call the `html2canvas` rasteriser and perform DOM side effects (`toDataURL`, a link click with file name `meme.png`).
- Pointer tracking inside `react-draggable` (lines 143-155) is left out. Only the final `onStop` offset enters the model.
- Drag offsets are JavaScript floating-point numbers in the code. The model uses integers because it only replaces them.
- JSX layout, CSS classes, `next/image` rendering and the spinner widgets (lines 71-181) are presentation. `Render` keeps only the state-dependent conditions.
- React's asynchronous scheduling and batching of state updates are left out. Each handler is one atomic sequential update.
- Take: models `slice(0, end)` only for a non-negative `end`. The component never passes a negative one.
