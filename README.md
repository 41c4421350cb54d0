# Coffee Architect: layer composition, scaling and selection rules

A Dafny model of the logic inside the coffee configurator's single React
component (`src/App.jsx`). The user picks a brewing method, a bean, a milk, a
drink "blueprint" and hot or iced. The component turns the selected drink into a
stack of layers and draws them in a 340 px glass, with a callout at the centre
of each layer. It keeps the drink compatible with the method, and it renders
generated brew guides with a small markdown line classifier.

The model has six modules, one file each:

- `wrappers.dfy` (`Wrappers`): `Option`, standing in for the `undefined` that `find` returns.
- `catalog.dfy` (`Catalog`): the constant tables `BEANS`, `METHODS`, `MILK_TYPES`
  and `DRINKS`, each drink as its own constant. It also holds the `find` lookups
  and `hasMilk`.
- `composition.dfy` (`Composition`): `generateLayers`, meaning the iced relabelling
  and the ice layer on top.
- `visual.dfy` (`Visual`): the total volume, the 340/200 scale factor, the
  proportional rescaling when a drink would overflow the glass, and the callout centres.
- `controller.dfy` (`Controller`): the five `useState` fields as the class
  `Selection`. Its setters are the click handlers; `Reconcile` is the effect
  that restores drink/method compatibility.
- `markdown.dfy` (`Markdown`): `split('\n')`, the `###`/`##`/`#` heading
  classification with `replace`, and the `**bold**` part unwrapping with `slice(2, -2)`.

Modelling choices:

- Volumes and pixel heights are exact `real`s, and ids are strings as in the source.
- The layer field `label` is called `caption`, because `label` is a Dafny keyword.
- The source computes the drawn height of a layer with the same expression in three places: the stack (lines 356-363), the callout (385-389) and the running sum under the callout (391-395). All three are the one function `Visual.VisualHeight` here. So the callouts use the same scaling branch as the stack by construction.
- The comment at `src/App.jsx:317` speaks of a 250 ml reference cup, but the code divides by 200. The model follows the code: `ReferenceVolume` is 200, so the scale factor is 1.7.
- When no drink is compatible with the new method, the effect leaves the drink alone (`src/App.jsx:223`). `Reconciled` models that branch, and `Catalog.EveryMethodHasDrink` shows that the shipped catalog never reaches it.

Observations the proofs make explicit:

- No catalog drink, hot or iced, ever takes the rescaling branch. The largest is 85 ml plus 20 ml of ice, against the 200 ml reference (`Visual.CatalogNeverRescales`).
- A paragraph part that is exactly `**` or `***` counts as bold. It renders as an empty bold span, so those stars disappear from the output (`Markdown.ShortRunsRenderEmpty`). Every other part renders losslessly (`Markdown.RenderPartLossless`).

## Model

| member | source | states |
|---|---|---|
| `Catalog.FindFirst` | src/App.jsx:222 | `find` semantics: the result is the first index whose entry satisfies the predicate, and `None` exactly when no entry does |
| `Catalog.FindFirstAt` | src/App.jsx:222 | if entry `k` matches and no earlier entry does, `find` returns `k` |
| `Catalog.DrinkById` | src/App.jsx:212 | `currentDrink` is defined exactly when some catalog drink has the selected id, and it is a catalog drink with that id |
| `Catalog.DrinkByOwnId` | src/App.jsx:212 | looking up a catalog drink's own id yields that drink |
| `Catalog.FirstCompatible` | src/App.jsx:222 | the first drink in declaration order whose `compatible` list holds the method; `None` iff no drink does |
| `Catalog.AnyMilky` | src/App.jsx:218 | `some` over the layers: true iff some layer is milk or foam |
| `Catalog.HasMilk` | src/App.jsx:218 | `hasMilk` is true iff there is a current drink and one of its base layers is milk or foam |
| `Catalog.DrinkIdsDistinct` | src/App.jsx:33-109 | no two catalog drinks share an id |
| `Catalog.EveryMethodHasDrink` | src/App.jsx:18-109 | every method in `METHODS` has at least one compatible drink in `DRINKS` |
| `Catalog.CatalogWellFormed` | src/App.jsx:33-109 | every drink has at least one layer and one compatible method, and every layer volume is positive |
| `Composition.Chill` | src/App.jsx:231-236 | the iced relabelling keeps type and height; milk, foam and water get "Cold Milk", "Cold Foam" and "Cold Water"; any other layer is returned unchanged |
| `Composition.Chilled` | src/App.jsx:231-236 | the `map` keeps the length and relabels each layer in place |
| `Composition.Composed` | src/App.jsx:227-240 | no drink gives `[]`; hot gives exactly the base layers; iced gives one more layer, the last being `{ice, 20, "Ice Cubes"}`, and each earlier layer keeps its substance and height and is the relabelled base layer |
| `Composition.GenerateLayers` | src/App.jsx:227-240 | copying the base layers into a fresh array (relabelled when iced) and pushing the ice layer yields exactly the composed layers: no drink gives `[]`, hot gives the base layers, iced gives the relabelled layers plus the ice on top |
| `Composition.ChilledIdempotent` | src/App.jsx:231-236 | relabelling already relabelled layers changes nothing |
| `Visual.TotalVolume` | src/App.jsx:309 | the left-fold sum of the layer heights, non-negative when every height is |
| `Visual.Overflows` | src/App.jsx:318 | `totalVolume * 340/200 > 340` holds exactly when the total exceeds 200 ml |
| `Visual.VisualHeight` | src/App.jsx:356-363 | a drawn height is non-negative for a non-negative volume and positive for a positive one; a layer no larger than the drink fits in 340 px; the proportional branch divides only by a total above 200, never by zero |
| `Visual.StackBelow` | src/App.jsx:391-395 | the running sum of drawn heights below a layer is non-negative for non-negative volumes |
| `Visual.Centre` | src/App.jsx:397 | a callout's centre lies between the top of the stack below its layer and the top of its own layer |
| `Visual.TotalVolumeAppend` | src/App.jsx:309 | putting a layer on top adds its volume to the total |
| `Visual.SameHeightsSameVolume` | src/App.jsx:309 | layer lists with equal heights position by position have equal totals |
| `Visual.ComposedVolume` | src/App.jsx:230-237 | an iced drink holds its base volume plus 20 ml; a hot drink holds its base volume |
| `Visual.StackBelowScaled` | src/App.jsx:391-395 | the stack under layer `k` is as tall as one layer holding the volume of the first `k` layers, under the same branch |
| `Visual.VisualHeightAdds` | src/App.jsx:356-363 | under a fixed total, the drawn height is additive in the volume |
| `Visual.WholeIsFull` | src/App.jsx:360-362 | when the drink overflows, a layer holding its whole volume is drawn at exactly 340 px |
| `Visual.WholeDrawn` | src/App.jsx:356-363 | a layer holding a drink's whole volume is drawn between 0 and 340 px: exactly 340 px when rescaled, the volume times 1.7 otherwise |
| `Visual.StackIsWholeDrawn` | src/App.jsx:356-363 | the drawn stack of all layers is as tall as one layer holding the whole volume |
| `Visual.StackHeight` | src/App.jsx:356-363 | for non-negative volumes, the drawn stack is between 0 and 340 px, and exactly 340 px when rescaled; without rescaling it is the total times 1.7 |
| `Visual.StackBelowMonotone` | src/App.jsx:391-395 | the stack under a layer never shrinks going up, and strictly grows when every volume is positive |
| `Visual.CentreWithinGlass` | src/App.jsx:385-397 | every callout centre lies within [0, 340] for non-negative volumes |
| `Visual.CentresIncrease` | src/App.jsx:385-397 | with positive volumes, callout centres strictly increase with the layer index |
| `Visual.CatalogNeverRescales` | src/App.jsx:358-363 | no catalog drink, hot or iced, takes the rescaling branch |
| `Visual.TotalVolumeShort` | src/App.jsx:309 | the total of a recipe with one to three layers, written out |
| `Controller.Reconciled` | src/App.jsx:220-225 | the effect leaves an unknown drink, a compatible drink, or a method without any compatible drink unchanged |
| `Controller.ReconciledIsFirstCompatible` | src/App.jsx:220-225 | an incompatible drink becomes the first catalog drink, in declaration order, whose `compatible` list contains the method |
| `Controller.ReconciledIsCompatible` | src/App.jsx:220-225 | for a catalog drink and a method from `METHODS`, the drink is compatible after the effect |
| `Controller.ReconciledIdempotent` | src/App.jsx:220-225 | running the effect again changes nothing |
| `Controller.FilterToMachineGivesEspresso` | src/App.jsx:220-225 | a filter coffee switched to the espresso machine becomes the espresso |
| `Controller.LatteToV60GivesFilter` | src/App.jsx:220-225 | the default latte switched to the V60 becomes the filter coffee |
| `Controller.EspressoHasNoMilk` | src/App.jsx:218 | the espresso has no milk or foam layer, so milk clicks are ignored for it |
| `Controller.Selection.HasMilkNow` | src/App.jsx:218 | true iff there is a current drink and one of its base layers is milk or foam |
| `Controller.Selection.CurrentDrink` | src/App.jsx:212 | in a valid state the current drink exists, carries the selected id and is compatible with the selected method |
| `Controller.Selection.constructor` | src/App.jsx:199-203 | initial state: machine, Ethiopian beans, whole milk, latte, hot, which is a valid state |
| `Controller.Selection.Reconcile` | src/App.jsx:220-225 | the drink becomes the reconciled drink, and the other fields stay as they were |
| `Controller.Selection.SetMethod` | src/App.jsx:457 | sets the method, runs the effect and keeps the selection valid; bean, milk and temperature are unchanged |
| `Controller.Selection.SetDrink` | src/App.jsx:497-498 | only a compatible drink can be picked; it becomes the selected drink and the selection stays valid |
| `Controller.Selection.SetBean` | src/App.jsx:531 | sets the bean and nothing else |
| `Controller.Selection.SetMilk` | src/App.jsx:560 | the milk changes only when the current drink has milk or foam; otherwise nothing changes |
| `Controller.Selection.SetIced` | src/App.jsx:472-480 | sets hot or iced and nothing else |
| `Controller.Selection.Layers` | src/App.jsx:306 | the drawn layers are the composition of the current drink, with one extra layer when iced |
| `Controller.MethodRoundTrip` | src/App.jsx:199-225 | from the initial latte: V60 falls back to filter, then machine falls back to espresso, where a milk click leaves whole milk selected |
| `Markdown.IndexOf` | src/App.jsx:177-179 | the first position where the marker occurs, or `None` when it occurs nowhere |
| `Markdown.OccursShifted` | src/App.jsx:177-179 | an occurrence in a string's tail is an occurrence one position later in the whole string |
| `Markdown.ReplaceFirst` | src/App.jsx:177-179 | `replace` with a string pattern leaves a string without the pattern unchanged, and replaces a leading pattern only |
| `Markdown.Classify` | src/App.jsx:177-179 | a line is a heading iff it starts with `#`; the line is the marker of the heading's level (1-3) followed by its text; below level 3 the text does not start with `#`; any other line is a paragraph |
| `Markdown.ClassifyHeading` | src/App.jsx:177-179 | a marker followed by text that does not extend it reads back as a heading of that level with that text |
| `Markdown.SliceIndex` | src/App.jsx:185 | `slice` index resolution: an index in `0..length` is kept, a negative one at or above `-length` counts from the end, one past the end becomes `length`, and one below `-length` becomes 0 |
| `Markdown.Slice` | src/App.jsx:185 | `slice(2, -2)` takes the part between the first two and last two characters, or nothing when those overlap |
| `Markdown.RenderPart` | src/App.jsx:184-187 | a part is bold iff it starts and ends with `**`; a bold part of four or more characters is `**` + text + `**`; a shorter one is empty; a plain part is shown as is |
| `Markdown.BoldRoundTrip` | src/App.jsx:184-185 | any text wrapped in `**` renders back as that text, bold |
| `Markdown.RenderPartLossless` | src/App.jsx:184-187 | every part other than `**` and `***` can be restored from its rendering |
| `Markdown.ShortRunsRenderEmpty` | src/App.jsx:184-185 | `**` and `***` render as an empty bold span |
| `Markdown.Split` | src/App.jsx:173 | `split('\n')` yields at least one piece, no piece holds a newline, and joining the pieces with newlines gives back the content |
| `Markdown.JoinFirst` | src/App.jsx:173 | joining after extending the first piece extends the joined text by the same prefix |
| `Markdown.Render` | src/App.jsx:173-179 | one block per line, in order, each the classification of its line |
| `Markdown.RestoreAll` | src/App.jsx:173-179 | one source line per block, each the block's heading marker and text, or the paragraph line |
| `Markdown.RenderRoundTrip` | src/App.jsx:173-179 | the rendering is lossless: restoring every block and joining with newlines gives back the content, and every heading has level 1 to 3 |

## Left out

- The AI proxy (`netlify/functions/openai.js`) and `callOpenAI`: HTTP requests, an environment secret and JSON from an external service, with no logic of their own.
- `simulateLoading` and the flavour, guide and shop-search handlers: timers, prompt strings and awaiting the network.
- Presentation: the `Button`, `Card` and `Modal` components, CSS classes, icons, colours, the left/right placement of callouts (`i % 2`) and the "LAYER n" captions.
- The regular-expression split of a paragraph into parts (`split(/(\*\*.*?\*\*)/g)`): the parts are taken as inputs. Because of this, `**` and `***` can only reach `RenderPart` when a whole part is exactly that run.
- IEEE-754 rounding: `340 / 200` and `(height / totalVolume) * 340` are exact rationals here, so the JavaScript values may differ in the last bit.
- React scheduling: the effect runs after a render. The one render in which the new method is shown with the old, incompatible drink is not modelled; `SetMethod` runs the effect at once.
- The effect also runs when only the drink changes. Drink buttons are disabled for incompatible drinks, so that run never changes anything, and `SetDrink` simply keeps the chosen drink.
- The modal state fields (`showAIModal`, `aiResponse`, `loadingText`, location input): they belong to the network features above.
