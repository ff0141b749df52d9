# Element styles of the Nidium canvas UI, in Dafny

This project models `src/Embed/StyleContainer.js`. That file is the style engine behind every element of Nidium's canvas-drawn UI. It has five parts:

- **Key classification.** Two key lists decide how a property is resolved:
  - inherited keys (colour, text alignment, line height, font family, size and weight);
  - non-numeric keys.
- **`styleProxy`, the resolver.** It writes one raw style value onto the element's live fields:
  - inherited keys go to the element and to its `inherit` map;
  - non-numeric keys are copied as they are;
  - a percentage is taken of the parent's size, width or height, depending on the key's group;
  - any other value becomes `"auto"` or whatever `parseFloat` makes of it.
- **`refreshStyles`.** It runs the resolver again over a fixed, ordered list of tracked keys, for every key whose stored value is truthy.
- **`ElementStyles`, the style store.**
  - Its constructor merges the element's class rule sets into an empty raw map with `Object.assign`, then stores the bound `_paint` entry.
  - Its proxy `set` resolves a value and then stores the raw value.
  - `get` and `has` read the raw map back.
- **`paint`.** It turns the raw style into an ordered series of calls on the 2D drawing surface:
  - font settings;
  - a background fill with the style's shadow;
  - shadow clearing;
  - a border stroke.

The modules follow the parts of the file:

| file | module | contents |
|---|---|---|
| `values.dfy` | `JsValues` | JavaScript values and the conversions the engine relies on: truthiness, `parseFloat`, `Number()`, `*`, `-`, `+` and `\|\|`. |
| `keys.dfy` | `StyleKeys` | The key lists and the branch each key takes. |
| `resolver.dfy` | `StyleResolver` | The `Element` class; `styleProxy` as the method `StyleProxy`, specified by the function `Resolved`; `refreshStyles` as the loop `RefreshStyles`, specified by `Refreshed`. |
| `classes.dfy` | `ClassSheets` | Splitting the class attribute, and the `Object.assign` merge, specified by `Merged` and `LastClassValue`. |
| `canvas.dfy` | `Drawing` | The drawing surface as a class that records its calls, and `drawer.setShadow` / `drawer.disableShadow`. |
| `styles.dfy` | `ElementStyleStore` | The `ElementStyles` class: its constructor, `Get`, `Has`, `Set`, `Refresh` and `Paint`. Paint's calls are specified by `PaintOps`. |

Values are modelled by `Val`, which has five cases:
- `undefined`;
- `NaN`;
- a number, held as an exact real;
- a string;
- a function (the `_paint` entry).

The drawing surface is a list of commands: attribute assignments, `fillRect` calls and `strokeRect` calls. Properties of what paint leaves behind are stated with two functions:
- `AttrAfter`: the last value a trace assigned to an attribute;
- `Rects`: the rectangles a trace draws.

Behaviour of the source worth noting:

- **`"0%"` resolves to the number 0.** `parseFloat("0%")` is 0. That is falsy, so the value takes the plain branch and is assigned 0 (`ZeroPercentIsZero`).
- **The class merge runs on an empty map.** The constructor sets `this.style = {}` before merging (`src/Embed/StyleContainer.js:111`). So a new store's keys are exactly those its classes define, plus `_paint`. The merge itself is modelled for any starting map (`Merged`).
- **The merge writes the raw map only.** It does not go through the resolver, so the element's live fields are untouched; the constructor changes no element field.
- **`Object.assign` receives the style itself first.** Its sources are then each class's rule set, and last a copy of the style.
- **A refresh resolves each key against the parent.** The percentage branches read the parent's geometry, never the element's own fields. Unless an element is its own parent, no key in a pass depends on a key resolved earlier in the same pass (`RefreshResolvesEachKeyAlone`).
- **The border's corner radius has no default.** Without `radius`, the stroke's radius is NaN, while the fill's is 0 (`BorderRadiusWithoutRadius`).

## Model

| member | source | states |
|---|---|---|
| StyleKeys.Classify | src/Embed/StyleContainer.js:16-60 | A key is inherited exactly when it is in the inherited list, and takes the non-numeric branch exactly when it is in the non-numeric list but not the inherited one. Every size, horizontal or vertical key takes its own group's branch, since no earlier test catches it. A key takes none of these branches exactly when it is in no list. |
| StyleKeys.OnlyPositionIsNonNumeric | src/Embed/StyleContainer.js:3-28 | The inherited test runs first, so of the non-numeric list only "position" ever takes the non-numeric branch; color, textAlign and fontFamily are handled as inherited. |
| StyleKeys.ResolvedKeysAreTracked | src/Embed/StyleContainer.js:67-79 | Every inherited key, non-numeric key and percentage-group key is in the refresh list. |
| StyleKeys.PaintKeysAreUntracked | src/Embed/StyleContainer.js:67-79 | No paint-only key (background, border, radius, the four shadow keys, `_paint`) is in the refresh list. |
| StyleResolver.UsablePercent | src/Embed/StyleContainer.js:30 | The percentage test passes only with a parent, and only for a string whose parseFloat is a non-zero number. |
| StyleResolver.Fallback | src/Embed/StyleContainer.js:61-63 | The plain branch gives "auto" exactly for "auto", and otherwise the parsed number, which may be NaN; the result is always a number, NaN or "auto". |
| StyleResolver.Resolved | src/Embed/StyleContainer.js:12-64 | Only the entry for `key` changes. The inherit map changes exactly for inherited keys, and gets the raw value. Inherited and non-numeric keys get the raw value. A numeric key ends as a number, NaN or "auto", or is left as it was. A usable percentage on a key outside the three groups changes nothing. Anything that is not a usable percentage goes through the plain branch. |
| StyleResolver.StyleProxy | src/Embed/StyleContainer.js:12-64 | The method, written branch by branch as in the source, leaves the element in exactly the state `Resolved` describes, taking the parent's geometry at the time of the call. |
| StyleResolver.SizePercentOfParent | src/Embed/StyleContainer.js:30-41 | With a parent, "n%" with n non-zero on a size key gives the parent's value for that key times n·0.01. |
| StyleResolver.HorizontalPercentOfParent | src/Embed/StyleContainer.js:43-50 | On a horizontal key (left, right, horizontal padding and margins), "n%" gives the parent's width times n·0.01. |
| StyleResolver.VerticalPercentOfParent | src/Embed/StyleContainer.js:52-59 | On a vertical key (top, bottom, vertical padding and margins), "n%" gives the parent's height times n·0.01. |
| StyleResolver.PercentIsUsable | src/Embed/StyleContainer.js:30-31 | "n%" with n non-zero takes the percentage branch whenever there is a parent, and parses to n. |
| StyleResolver.ZeroPercentIsZero | src/Embed/StyleContainer.js:30-63 | A zero percentage ("0%", "0.0%", …) on a numeric key does not take the percentage branch: the key becomes the number 0, with or without a parent. |
| StyleResolver.AutoStaysAuto | src/Embed/StyleContainer.js:61-63 | "auto" on a numeric key resolves to "auto". |
| StyleResolver.ResolvedIsLocal | src/Embed/StyleContainer.js:12-64 | What a key resolves to depends on the element's state only through that key's own old entry. |
| StyleResolver.ResolvedTwice | src/Embed/StyleContainer.js:12-64 | Resolving the same key with the same value and parent twice changes that key no further than resolving it once. |
| StyleResolver.RefreshStyles | src/Embed/StyleContainer.js:66-88 | The loop leaves the element in the state `Refreshed` describes: the tracked keys in list order, each resolved only when its stored value is truthy. |
| StyleResolver.Refreshed | src/Embed/StyleContainer.js:81-87 | The state after a refresh pass over a key list. Only inherited keys ever change the inherited map. |
| StyleResolver.RefreshTouchesOnlyTruthyKeys | src/Embed/StyleContainer.js:81-87 | A refresh leaves every key it does not visit, and every key whose stored value is falsy, exactly as it was. |
| StyleResolver.RefreshIgnoresPaintKeys | src/Embed/StyleContainer.js:66-88 | A refresh never changes a paint-only key, on the element or in its inherit map. |
| StyleResolver.RefreshResolvesEachKeyAlone | src/Embed/StyleContainer.js:81-87 | When the element is not its own parent, every visited key with a truthy value ends as if it alone had been resolved from the state before the pass. A key listed twice ends as if resolved once. |
| StyleResolver.RefreshUsesCurrentParent | src/Embed/StyleContainer.js:66-88 | After a refresh, each tracked key with a truthy value holds the value resolved against the parent's geometry at refresh time, so a refresh after a parent resize sees the new size. |
| ClassSheets.Split | src/Embed/StyleContainer.js:129 | `split(" ")` gives at least one piece, and no piece contains a space. |
| ClassSheets.JoinSplit | src/Embed/StyleContainer.js:129 | Joining the pieces with single spaces gives back the attribute, so no character is lost or added. |
| ClassSheets.SplitJoin | src/Embed/StyleContainer.js:129 | Splitting space-free names joined by single spaces gives back the names. |
| ClassSheets.ClassNames | src/Embed/StyleContainer.js:117-129 | An absent or empty class attribute gives no class names (the falsy test). Any other attribute gives names that join back to the attribute. |
| ClassSheets.MergeClassRules | src/Embed/StyleContainer.js:128-138 | The loop that looks up each class, followed by Object.assign, produces `Merged`: the style, then each class's rule set in list order, then a copy of the style. |
| ClassSheets.ObjectAssign | src/Embed/StyleContainer.js:138 | Object.assign's loop copies each defined source onto the target in turn and skips undefined sources. |
| ClassSheets.MergeNoClasses | src/Embed/StyleContainer.js:117-139 | With no class names, the merge leaves the style unchanged. |
| ClassSheets.ClassSourcesLastWins | src/Embed/StyleContainer.js:128-138 | Assigning the class rule sets gives a key not in the style the value from the last class defining it. If no class defines the key, the key stays absent. |
| ClassSheets.Merged | src/Embed/StyleContainer.js:133-138 | The merge applies the class rule sets and then a copy of the style, so keys already in the style before the merge keep their values. |
| ClassSheets.MergeTakesLastClass | src/Embed/StyleContainer.js:128-138 | Every other key is present after the merge exactly when some listed class defines it, and takes the value of the last such class. |
| ClassSheets.MergeSkipsUnknownClass | src/Embed/StyleContainer.js:129-131 | A class name with no rule set contributes nothing, wherever it stands in the list. |
| Drawing.Canvas.SetAttr | src/Embed/StyleContainer.js:174 | Assigning a drawing attribute appends that one assignment to the surface's calls. |
| Drawing.Canvas.FillRect | src/Embed/StyleContainer.js:184 | `fillRect` appends one fill with its five arguments. |
| Drawing.Canvas.StrokeRect | src/Embed/StyleContainer.js:202-208 | `strokeRect` appends one stroke with its five arguments. |
| Drawing.ShadowOpsSetShadow | src/Embed/StyleContainer.js:91-96 | After setShadow, each of the four shadow attributes holds the style's value for it, or undefined when the style has none. setShadow sets nothing else and draws nothing. |
| Drawing.SetShadow | src/Embed/StyleContainer.js:91-96 | The method makes exactly the four shadow assignments, in order. |
| Drawing.DisableShadow | src/Embed/StyleContainer.js:98-105 | disableShadow makes the four shadow assignments, each with 0. |
| Drawing.ClearShadowZeroes | src/Embed/StyleContainer.js:98-105 | After disableShadow, every shadow attribute is 0. Nothing else is set and nothing is drawn. |
| ElementStyleStore.InitialStyleFromClasses | src/Embed/StyleContainer.js:110-150 | A new store holds `_paint`. Every other key is present exactly when some class of the attribute defines it, with the value of the last such class. |
| ElementStyleStore.InitialStyleWithoutClasses | src/Embed/StyleContainer.js:111-150 | Without a class attribute, or with an empty one, a new store holds only `_paint`. |
| ElementStyleStore.ElementStyles.constructor | src/Embed/StyleContainer.js:109-150 | The raw style is the merge of the class rule sets into an empty map, with `_paint` added. The rule table is the parent's when the element is a shadow root, and its own otherwise. |
| ElementStyleStore.ElementStyles.Get | src/Embed/StyleContainer.js:158-160 | `get` returns the raw stored value, or undefined for an absent key. |
| ElementStyleStore.ElementStyles.Has | src/Embed/StyleContainer.js:161-164 | `has` holds exactly for keys in the raw map. A key `has` rejects reads as undefined. |
| ElementStyleStore.ElementStyles.Set | src/Embed/StyleContainer.js:153-157 | `set` returns true for every key. It stores the raw value, not the resolved one: a later `get` returns it and `has` holds. No other key's `get` or `has` changes, and the element is resolved exactly as `styleProxy` does. |
| ElementStyleStore.ElementStyles.Refresh | src/Embed/StyleContainer.js:113-115 | The resize handler leaves the raw style unchanged and refreshes the element from it. |
| ElementStyleStore.ElementStyles.Paint | src/Embed/StyleContainer.js:168-210 | paint changes only the surface, appending exactly `PaintOps` of the raw style and the element's width and height. The style is untouched, so two calls in a row append the same calls. |
| ElementStyleStore.PaintFont | src/Embed/StyleContainer.js:173-179 | The font step appends `FontOps`. |
| ElementStyleStore.PaintBackground | src/Embed/StyleContainer.js:181-186 | The background step appends `BackgroundOps`: setShadow, then fillStyle, then the fill, then disableShadow. |
| ElementStyleStore.ClearBlur | src/Embed/StyleContainer.js:188-193 | The blur step appends the four zero assignments exactly when shadowBlur is truthy. |
| ElementStyleStore.PaintBorder | src/Embed/StyleContainer.js:195-209 | The border step appends `BorderOps`. |
| ElementStyleStore.PaintOps | src/Embed/StyleContainer.js:168-210 | paint makes no call on the surface exactly when fontSize, fontFamily, backgroundColor and shadowBlur are all falsy and the border keys are not both truthy. |
| ElementStyleStore.FontAndBlurDrawNothing | src/Embed/StyleContainer.js:173-193 | The font and blur steps draw no rectangle. |
| ElementStyleStore.BackgroundDraws | src/Embed/StyleContainer.js:181-186 | The background step draws exactly one fill, over (0, 0, w, h) with radius `radius \|\| 0`, when backgroundColor is truthy, and nothing otherwise. |
| ElementStyleStore.BorderDraws | src/Embed/StyleContainer.js:195-209 | The border step draws exactly one stroke when both borderColor and borderWidth are truthy, and nothing otherwise. |
| ElementStyleStore.FontOpsEffect | src/Embed/StyleContainer.js:173-179 | The font step sets fontSize and fontFamily to the style's values when those are truthy, and sets nothing else. |
| ElementStyleStore.BackgroundOpsEffect | src/Embed/StyleContainer.js:181-186 | The background step leaves fillStyle holding the colour and all four shadow attributes at 0, and sets nothing else. Without a background colour it does nothing. |
| ElementStyleStore.ShadowClearOpsEffect | src/Embed/StyleContainer.js:188-193 | The blur step zeroes exactly the shadow attributes when shadowBlur is truthy, and otherwise does nothing. |
| ElementStyleStore.BorderOpsEffect | src/Embed/StyleContainer.js:195-209 | The border step sets lineWidth to borderWidth and strokeStyle to borderColor, and nothing else, when both are truthy. Otherwise it does nothing. |
| ElementStyleStore.PaintDraws | src/Embed/StyleContainer.js:168-210 | paint draws the background fill over (0, 0, w, h) with radius `radius \|\| 0` exactly when backgroundColor is truthy. After it comes the border stroke at (−bw/2, −bw/2, w+bw, h+bw, radius+bw/2), exactly when borderColor and borderWidth are truthy. It draws nothing else. |
| ElementStyleStore.BorderRadiusWithoutRadius | src/Embed/StyleContainer.js:195-209 | Without a radius in the style, the stroke's radius is NaN. The fill's radius defaults to 0. |
| ElementStyleStore.BeforeFill | src/Embed/StyleContainer.js:181-184 | Just before the fill, fillStyle holds the background colour and each shadow attribute holds the style's own value. |
| ElementStyleStore.FillCastsStyleShadow | src/Embed/StyleContainer.js:181-186 | When backgroundColor is truthy, the fill is among paint's calls. At that point fillStyle is the background colour and the shadow is the style's own. |
| ElementStyleStore.PaintClearsShadow | src/Embed/StyleContainer.js:181-193 | After paint, every shadow attribute is 0 whenever backgroundColor or shadowBlur is truthy. Otherwise paint leaves the shadow as it was. |
| ElementStyleStore.PaintSetsFonts | src/Embed/StyleContainer.js:173-179 | After paint, fontSize and fontFamily hold the style's values when those are truthy, and otherwise what they held before. |
| JsValues.ParseFloat | src/Embed/StyleContainer.js:14 | parseFloat always gives a number or NaN. A number comes back unchanged; undefined, NaN and a function give NaN. |
| JsValues.ParseFloatIgnoresPercent | src/Embed/StyleContainer.js:14 | A trailing "%" never changes what parseFloat reads, so "50%" parses as 50. |
| JsValues.ParseFloatAuto | src/Embed/StyleContainer.js:62 | parseFloat("auto") is NaN. This is why the plain branch tests for "auto" before parsing. |

## Left out

- Event wiring (`src/Embed/StyleContainer.js:113-115`, `141-148`) is not modelled. This covers the element's resize listener, the load listener and the parent's resize subscription. A refresh is the explicit call `ElementStyles.Refresh`.
- The rule-table lookup is not modelled. This covers `Symbols` (the shadow-root symbol) and `getNSS()`; the `Symbols` module is not part of this model. The constructor takes the element's own table and the parent's table as parameters and picks one as the source does.
- A shadow root without a parent makes the source throw when it looks up the parent's table. The model receives the table as a parameter and does not model that failure.
- The JavaScript `Proxy` mechanism is replaced by an ordinary class with `Get`, `Set` and `Has`.
- ElementStyleStore.ElementStyles.Get: does not model lookups that reach the object's prototype (`toString` and the like). It reads only the raw map's own entries.
- ElementStyleStore.ElementStyles.Has: likewise, `in` on a prototype property is not modelled.
- The `_paint` entry is modelled only as an opaque truthy function value. Binding and calling it are not modelled.
- JsValues.ParseFloat: follows a decimal grammar only (sign, digits, a point, digits), after skipping ASCII white space (space, tab, line feed, vertical tab, form feed, carriage return). Exponents, `Infinity`, other Unicode white space and the string form of non-string values other than numbers are not modelled.
- JsValues.ToNumber: has the same limits as `ParseFloat`, and also ignores hexadecimal and binary literals.
- `null`, booleans and objects are not values of the model: `Val` has no case for them. They convert differently from `undefined` in arithmetic. For example, `null` converts to 0, so `s.radius + s.borderWidth*0.5` with a `null` radius gives half the border width rather than NaN (`src/Embed/StyleContainer.js:207`). Likewise `p[key] * parsed` gives 0 when the parent's field is `null` (`src/Embed/StyleContainer.js:40`). A style or parent field holding one of these values is outside the model.
- Numbers are exact reals, not IEEE-754 doubles, so `n*0.01` and the border arithmetic carry no rounding.
- JsValues.Add: models `+` on numbers only. When an operand is a string, JavaScript concatenates instead, for example `"5" + 2.5` in the border radius. The model treats both operands as numbers.
- The drawing surface is modelled only through the calls made on it. Rendering is not modelled.
- Loose equality (`==`) is modelled only where the source uses it: against the string "auto", and against "%" on the value's last character.
