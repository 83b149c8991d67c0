# COOKIEsmas — a Dafny model of the cookie avatar and the app's state machine

COOKIEsmas is a client-only mock-up of a gift-exchange app. A user signs up
through a mock Google and Mattermost flow. They then design a gingerbread-cookie
avatar, write a letter and "bake" it into a friend's oven. The letters can be
read only on Christmas. This project models the two parts of the app that hold
logic:

- **The avatar renderer** (`components/CookieVisual.tsx`), module
  `CookieVisual`. It is a total, pure function from a `CookieConfig` to the
  ordered list of shapes drawn in a fixed 200×200 view box:
  - the body, shirt and two buttons are always drawn;
  - then one eye variant, one mouth variant and one accessory overlay, chosen
    by integer selectors.

  Path geometry is kept as opaque outline tokens and colours as opaque strings.
- **The app** (`App.tsx`), modules `AppData` and `App`.
  - `AppData` holds the mock constants and the value-building expressions:
    - `randomize`, with its five `Math.random()` draws taken as an input;
    - `handleSend`'s letter, with both `Date.now()` readings taken as inputs;
    - `handleSearch`'s canned friend oven.
  - `App` holds:
    - the pure state machine (`AppState`, `Switch`, `AfterPress`,
      `AfterSendCookie`) and its invariant;
    - the class `App.App`, whose fields are the state variables of `App` and
      of the child screen currently mounted (maker wizard, oven reveal modal,
      friend search). Each event handler is a method proved against the pure
      state machine.

    As in React, a child screen's local state starts afresh each time the app
    switches to that screen. `Switch` models this, and it is why the wizard
    always opens on step 1 with the initial cookie.
- **Two supporting modules.**
  - `Types` holds the records and enumerations of `types.ts`.
  - `JsText` gives the exact meaning of the JavaScript built-ins the guards
    depend on:
    - `String.length` counts UTF-16 code units, so a character outside the
      Basic Multilingual Plane counts twice;
    - `trim()` removes ECMAScript WhiteSpace and LineTerminator characters;
    - `Array.prototype.includes`.

The invariant `App.Invariant` holds in every state reached through the app's
event handlers. It says:
- the wizard is on step 1, 2 or 3; its cookie comes from the palette; its
  letter fits the 300-unit text area; and step 3 is reached only with a
  non-blank letter;
- `myOven` and `sentCookies` are always the same list of well-formed letters;
- the signed-in area is entered only after verifying;
- the side menu is open only on HOME;
- a letter is revealed only on Christmas, and only one from the oven.

The constructor establishes it and every event-handler method keeps it.
`App.App.SetScreen` is the raw `setScreen` setter. It does not keep the
invariant on its own: for example, it could move an unverified user from
LANDING to HOME. The event handlers call it only where the invariant is
preserved, which `SwitchKeepsInvariant` states.

## Model

| member | source | states |
|---|---|---|
| CookieVisual.Render | components/CookieVisual.tsx:27-43 | Whatever the selectors say, the first four shapes are: the body path filled with `skinColor`; the shirt band filled with `shirtColor` (even `transparent`) at opacity 0.9; and two white r=4 button circles. |
| CookieVisual.EyeShapes | components/CookieVisual.tsx:46-65 | Eye type 0 draws exactly two r=5 ink circles. Type 1 draws two unfilled ink line strokes. Type 2 draws two r=6 ink circles and two r=2 white highlights. Any other value draws nothing. All shapes are on the eye layer. |
| CookieVisual.MouthShapes | components/CookieVisual.tsx:67-76 | Mouth type 0 draws the smile curve. Type 1 draws one r=5 ink circle. Type 2 draws the frown curve. Any other value draws nothing. |
| CookieVisual.AccessoryShapes | components/CookieVisual.tsx:78-94 | Accessory 1 draws the hat cone, a white pom-pom circle and a white brim rectangle. 2 draws the bowtie path and 3 the scarf path. 0 or any other value draws nothing. |
| CookieVisual.Part | components/CookieVisual.tsx:27-94 | Every shape in a layer's block lies on that layer. |
| CookieVisual.LayerAt | components/CookieVisual.tsx:27-94 | The k-th block drawn is the layer of rank k. |
| CookieVisual.BlocksFromLayers | components/CookieVisual.tsx:27-94 | The blocks from position k on hold only layers of rank k or more. |
| CookieVisual.RenderIsBlocks | components/CookieVisual.tsx:27-94 | A render is the six layer blocks concatenated in the order body, shirt, buttons, eyes, mouth, accessory. |
| CookieVisual.OnLayerAppend | components/CookieVisual.tsx:27-94 | Filtering by layer distributes over concatenation. |
| CookieVisual.OnLayerKeeps | components/CookieVisual.tsx:27-94 | Every drawn shape survives filtering by its own layer. |
| CookieVisual.OnLayerUniform | components/CookieVisual.tsx:27-94 | Filtering a one-layer block keeps all of it or nothing. |
| CookieVisual.BlocksFromOnLayer | components/CookieVisual.tsx:27-94 | Filtering the blocks from position k by a layer gives that layer's block if it is drawn from k on, and nothing otherwise. |
| CookieVisual.RenderLayer | components/CookieVisual.tsx:27-94 | For every layer, the shapes of a render on that layer are exactly that layer's block. So the body, shirt and buttons are always there, and each feature shows exactly the variant its selector names. |
| CookieVisual.OrderedPrepend | components/CookieVisual.tsx:27-94 | A block of rank k put before later-ranked shapes in drawing order keeps the drawing order. |
| CookieVisual.BlocksFromInDrawingOrder | components/CookieVisual.tsx:27-94 | The blocks from any position on are in drawing order. |
| CookieVisual.RenderInDrawingOrder | components/CookieVisual.tsx:27-94 | No shape is drawn before a shape of an earlier layer. |
| CookieVisual.AccessoryOverFace | components/CookieVisual.tsx:45-94 | Every accessory shape comes after every eye and mouth shape, so it is painted on top of the face. |
| CookieVisual.VariantsDisjoint | components/CookieVisual.tsx:46-94 | Two different variants of one feature share no shape. |
| CookieVisual.OneVariantPerFeature | components/CookieVisual.tsx:46-94 | No shape of a variant other than the selected one appears anywhere in the render. |
| CookieVisual.UnknownSelectorDrawsNothing | components/CookieVisual.tsx:46-94 | An unrecognised eye, mouth or accessory value draws nothing on that layer, and no error is raised. |
| CookieVisual.PlainCookieScenario | components/CookieVisual.tsx:28-76 | Dot eyes, the smile and no accessory give exactly seven shapes: body, shirt, the two buttons (always drawn, lines 42-43), two ink eye circles and the smile. |
| CookieVisual.SantaCookieScenario | components/CookieVisual.tsx:28-86 | Highlighted eyes, the round mouth and the hat give exactly twelve shapes: the four base shapes, four eye circles, the mouth circle, then the hat's cone, pom-pom and brim. |
| CookieVisual.CookieVisualOf | components/CookieVisual.tsx:11-26 | `size` (default 200) sets only the container's width and height. The view box is always 0 0 200 200. The shapes are the render of `config` alone. The hover motion is chosen exactly when `animate` is true (default false). |
| JsText.Utf16Length | App.tsx:138 | A string's JavaScript length is its character count plus the number of characters outside the Basic Multilingual Plane, which take two UTF-16 units each. So it lies between the character count and twice it, and equals the character count for Basic Multilingual Plane text. |
| JsText.Astral | App.tsx:138 | The count of characters outside the Basic Multilingual Plane is at most the string's length. |
| JsText.AstralZeroIffBmp | App.tsx:138 | That count is zero exactly when every character is inside the Basic Multilingual Plane. |
| JsText.TrimStart | App.tsx:242 | The result is a suffix of the input and does not start with whitespace. |
| JsText.TrimStartRemovesBlank | App.tsx:242 | Everything `TrimStart` removes is whitespace. |
| JsText.TrimEnd | App.tsx:242 | The result is a prefix of the input and does not end with whitespace. |
| JsText.Trim | App.tsx:242 | `trim()` is no longer than its input, and a non-empty result neither starts nor ends with whitespace. |
| JsText.TrimEndRemovesBlank | App.tsx:242 | Everything `TrimEnd` removes is whitespace. |
| JsText.TrimStartOfBlank | App.tsx:242 | Trimming the front leaves nothing exactly when the string is all whitespace. |
| JsText.TrimEndKeepsNonBlankHead | App.tsx:242 | Trimming the end never empties a string that starts with a non-whitespace character. |
| JsText.TrimEmptyIffBlank | App.tsx:242 | `trim()` is empty exactly when every character is whitespace, which is when "next" stays disabled. |
| JsText.Includes | App.tsx:510 | `includes` is true exactly when the value is in the list. |
| AppData.Pick | App.tsx:122-126 | `Math.floor(x * n)` for a draw in [0, 1) is an index in 0..n-1. |
| AppData.RandomConfig | App.tsx:120-128 | The shuffled config always has a skin colour from the skin palette, a shirt colour from the shirt palette, eyes and mouth in 0..2 and an accessory in 0..3. |
| AppData.PickHits | App.tsx:122-126 | Every index in 0..n-1 is picked by some draw in [0, 1). |
| AppData.DrawsFor | App.tsx:120-128 | For any palette entries and selectors there are valid draws that shuffle to exactly that config. |
| AppData.RandomConfigCoversPalette | App.tsx:120-128 | Every config the maker's controls can produce is the outcome of some shuffle. |
| AppData.RandomCookieHasFace | App.tsx:120-128 | A shuffled cookie always draws eyes and a mouth. |
| AppData.MakeLetter | App.tsx:130-143 | The letter is unread. It is long exactly when the content is over 50 UTF-16 units. Its sender is the user's name, and its recipient, campus, class, content and cookie come from the form. |
| AppData.SentLetterWellFormed | App.tsx:130-143 | A letter from a complete form is well formed. For Basic Multilingual Plane text it is long exactly when it has more than 50 characters. |
| AppData.MockFriendOven | App.tsx:425-436 | The result carries the search term as its name and class "20반". It has exactly three cookies: each is the initial cookie with only the skin and accessory changed, within the palette, with accessories 0, 1 and 3. |
| App.BackTarget | App.tsx:509-515 | Back leads HOME exactly from MAKER, MY_OVEN, SENT_COOKIES, FRIEND_OVEN and MY_PAGE, and to LANDING from every other screen. |
| App.ShowsBottomNav | App.tsx:872 | The bottom navigation bar is shown exactly on HOME, MY_OVEN, SENT_COOKIES and FRIEND_OVEN. |
| App.Shown | App.tsx:547-886 | Which screen-changing controls each screen offers, with the side menu open or closed. AUTH_CODE offers none. On HOME with the menu open only the menu's two entries can be pressed. With it closed, only the dashboard cards and the navigation bar can be pressed. |
| App.Target | App.tsx:547-886 | The screen each control passes to `setScreen`. No control leads to AUTH_SUCCESS. Exactly the AUTH_INFO back arrow and the two logout buttons lead to LANDING. |
| App.AuthFlowIsLinear | App.tsx:547-627 | The controls on LANDING, LOGIN and AUTH_INFO lead one step along LANDING, LOGIN, AUTH_INFO, AUTH_CODE, or back to LANDING. No plain control leaves AUTH_CODE, which is left only by verifying. |
| App.NoControlEntersSignedIn | App.tsx:547-627 | No control pressed outside the signed-in area leads into it. That area (AUTH_SUCCESS onwards) is entered only by verifying on AUTH_CODE. |
| App.NavScreensGoBackHome | App.tsx:509-515 | From every screen with the navigation bar other than HOME, back leads HOME. |
| App.Switch | App.tsx:498-507 | Changing screen sets the screen and keeps the user, lists, Christmas flag and menu. Entering MAKER, MY_OVEN or FRIEND_OVEN afresh resets that screen's local state. |
| App.AfterSendCookie | App.tsx:517-522 | Sending appends the letter to the end of both `sentCookies` and `myOven` and shows HOME. |
| App.InitialIsValid | App.tsx:498-507 | The initial state (LANDING, the mock user unverified, empty lists, not Christmas, fresh wizard and search) satisfies the invariant. |
| App.SwitchKeepsInvariant | App.tsx:498-507 | A screen change keeps the invariant if it enters the signed-in area only after verifying and leaves HOME only with the menu closed. |
| App.PressKeepsInvariant | App.tsx:547-886 | Every screen-changing control keeps the invariant and leaves the side menu closed. |
| App.SendKeepsInvariant | App.tsx:517-522 | Sending a well-formed letter keeps the invariant and leaves every earlier letter of both lists unchanged. |
| App.RevealKeepsInvariant | App.tsx:311-323 | Revealing a letter from the oven on Christmas keeps the invariant. |
| App.App.constructor | App.tsx:498-507 | A new app is in the initial state. |
| App.App.SetScreen | App.tsx:498 | `setScreen` is the pure `Switch`. |
| App.App.Press | App.tsx:547-886 | A control sets the screen to its target, closes the menu if it was a menu entry, and keeps the lists, the user and the Christmas flag. |
| App.App.GoBack | App.tsx:509-515 | The screen becomes HOME exactly when it was one of the five inner screens, and everything else follows `Switch`. |
| App.App.Verify | App.tsx:605-608 | The user becomes verified with no other field changed, and the screen becomes AUTH_SUCCESS. |
| App.App.OpenMenu | App.tsx:683 | Only the menu flag changes, to open. |
| App.App.CloseMenu | App.tsx:640-649 | Only the menu flag changes, to closed. |
| App.App.ToggleChristmas | App.tsx:702-707 | Only the Christmas flag changes, to its negation. |
| App.App.HandleSendCookie | App.tsx:517-522 | The new state is `AfterSendCookie`, and the invariant is kept. |
| App.App.Shuffle | App.tsx:120-128 | Only the wizard's cookie changes, to the shuffled palette config. |
| App.App.PickSkin | App.tsx:177-184 | Only the cookie's skin colour changes, to the chosen palette colour. |
| App.App.PickShirt | App.tsx:187-196 | Only the cookie's shirt colour changes, to the chosen palette colour. |
| App.App.PickEyes | App.tsx:199-203 | Only the cookie's eye type changes, to one of 0..2. |
| App.App.PickAccessory | App.tsx:207-211 | Only the cookie's accessory changes, to one of 0..3. |
| App.App.ToLetterStep | App.tsx:216 | Step 1 moves to step 2 and nothing else changes. |
| App.App.EditContent | App.tsx:229-235 | Only the letter changes, to text of at most 300 units. |
| App.App.ToRecipientStep | App.tsx:242 | Step 2 moves to step 3 exactly when the trimmed letter is non-empty; otherwise nothing changes. |
| App.App.MakerBack | App.tsx:150 | On step 1, back leaves the maker for HOME. On steps 2 and 3 it only decrements the step. |
| App.App.EditRecipient | App.tsx:271-275 | Only the recipient's name changes. |
| App.App.SelectCampus | App.tsx:257-259 | Only the recipient's campus changes. |
| App.App.SelectClass | App.tsx:263-267 | Only the recipient's class changes. |
| App.App.EditMMId | App.tsx:279-283 | Only the Mattermost id changes. |
| App.App.Send | App.tsx:297 | With an empty recipient name nothing changes. Otherwise the letter built from the form and the current user is sent as by `handleSendCookie`. |
| App.App.CookieClick | App.tsx:311-323 | Before Christmas a click changes nothing. On Christmas it reveals exactly the clicked letter. |
| App.App.CloseReveal | App.tsx:400 | Closing the modal clears the revealed letter and nothing else. |
| App.App.EditSearchTerm | App.tsx:449-455 | Only the search term changes. |
| App.App.Search | App.tsx:425-436 | An empty term changes nothing. Otherwise the result becomes the canned friend oven for the term. |
| App.SignUpWalkthrough | App.tsx:547-627 | From a fresh app the screens run LANDING, LOGIN, AUTH_INFO, AUTH_CODE, AUTH_SUCCESS, HOME, and the user ends verified. |
| App.SignUp | App.tsx:547-608 | A fresh session that signs up reaches AUTH_SUCCESS verified, with empty lists, the menu closed and no Christmas. |
| App.WriteGreeting | App.tsx:207-242 | From AUTH_SUCCESS, choosing the hat, the letter step, a letter starting with a visible character and "next" reaches step 3, with the letter and the hat in the form and the lists untouched. |
| App.BakeCookie | App.tsx:130-144 | Signing up and sending one letter ends on HOME with both lists holding exactly that letter. The letter is addressed to the recipient, carries the text, comes from the mock user, is unread and is long exactly when the text is over 50 units. |
| App.OpenOvenAndTap | App.tsx:311-323 | Opening the oven from HOME (dashboard card or navigation bar) and tapping a letter shows it exactly when it is Christmas. |
| App.BakeAndRevealWalkthrough | App.tsx:311-323 | A baked letter stays locked when the oven is opened before Christmas and is revealed once Christmas is switched on. |

## Left out

- Animation: the framer-motion variants, spins and springs. Only the idle/hover choice of `CookieVisualOf` is kept.
- Geometry and styling: SVG path data, stroke caps and Tailwind class names are opaque outline tokens, or are not modelled.
- The bowtie and the scarf are each drawn as one path with two subpaths (components/CookieVisual.tsx:89, 93). The model keeps each as one shape with one outline token.
- `Draws` and `Pick` use exact real numbers where `Math.random() * n` is an IEEE double product. Rounding of that product is not modelled.
- Strings are sequences of Unicode scalar values. A JavaScript string holding an unpaired surrogate cannot be represented, so `Utf16Length` counts only well-formed text.
- `CookieVisualOf`'s `size` is an integer where the component takes any number. Fractional sizes are not modelled.
- Selectors are JavaScript numbers; the model uses integers, so fractional or NaN selectors are not modelled (they too draw nothing).
- Randomness and time are inputs:
  - the five `Math.random()` draws of `randomize` are a `Draws` value;
  - the two `Date.now()` readings are a string `id` and an integer `timestamp`, and the decimal formatting of the id is not modelled;
  - the random choice among the "not baked yet" messages is not modelled.
- The two-second `setTimeout` on LOGIN is the single control `LoginComplete`. The timer and its cancellation are asynchronous side effects.
- `alert` (after sending, and before Christmas in the oven), `toLocaleDateString` and the recharts bar chart with its fixed data are I/O, locale formatting or a third-party library.
- The `Button`, `Input` and `Select` wrappers and the rendering of forms and lists are UI plumbing. The text area's `maxLength={300}` becomes the precondition of `EditContent`.
- Screens without logic (SENT_COOKIES and MY_PAGE contents, the landing art) are kept only as screen tags.
- `toCampus as Campus` is an unchecked cast of a select value. The model takes a `Campus` directly.
- The class select is modelled as accepting any string.
- The Mattermost id is stored in the form but, as in the source, never put into the letter.
- The user's other fields are fixed at the mock user's values. Only `isVerified` changes.
- `Shown` encodes which controls are reachable with the menu open. The overlay (above the navigation bar) covers HOME's dashboard and the bottom bar while the side menu is open.
- The oven's reveal modal is a full-screen overlay (App.tsx:393) above the oven's grid and the navigation bar (App.tsx:873). The model does not encode this: `Shown` and `CookieClick` still allow the navigation bar and a cookie to be pressed on MY_OVEN while a letter is revealed. Such a press keeps the invariant. A press on the navigation bar there goes through `Switch` as usual, and a cookie click selects the clicked letter.
- App.App.GoBack: requires the side menu to be closed. `goBack` is reached only from screen headers other than HOME's, and the menu is open only on HOME.
- App.App.HandleSendCookie: requires a well-formed letter on MAKER. Its only caller, the wizard's send button, is proved to supply one.
- App.App.EditContent: requires the new text to fit 300 units, because the browser enforces `maxLength` before the handler runs.
- App.App.PickSkin, App.App.PickShirt, App.App.PickEyes and App.App.PickAccessory: these require the value to be one the buttons offer, because the handlers only receive values from the rendered palette.
- App.WriteGreeting, App.BakeCookie and App.BakeAndRevealWalkthrough: these require a letter that starts with a visible character, a sufficient condition for a non-blank letter; blank letters are covered by `ToRecipientStep`.
