# Carlos Shop storefront, modelled in Dafny

This project models the deterministic core of the Carlos Shop storefront. That core is:

- the cart and wishlist stores, their reducers and their hydration loops;
- the authentication store and its helpers, plus the edge middleware that guards the profile pages;
- the validation rules and error-classification chains of the login, registration and confirmation forms;
- the rules of the checkout page;
- the URL building and response handling of the product image uploader.

Each source file becomes one module:

| module | file | what it holds |
|---|---|---|
| `Cart` | `cart.dfy` | `cartReducer` as a pure function, its invariant, and the `CartProvider` class (state cell, actions, hydration loop) |
| `Wishlist` | `wishlist.dfy` | `wishlistReducer`, `isInWishlist`, and the `WishlistProvider` class |
| `Auth` | `auth.dfy` | the `AuthStore` class (`setUser`, `setAccessToken`, `logout`), `partialize`, the token predicates, `hasRole`, `redirectToLogin` and `withAuth` |
| `Middleware` | `middleware.dfy` | the redirect decision and the route matcher |
| `LoginForm` | `login_form.dfy` | the login schema, the redirect target, the failure classification and the form's state |
| `RegisterForm` | `register_form.dfy` | the registration schema, including the password regular expression, the classification and the form's state |
| `ConfirmForm` | `confirm_form.dfy` | the code rule, the missing-email guard, the two classification chains and the form's state |
| `Checkout` | `checkout.dfy` | the shipping form, tip tiers, order total, order number, screen choice and the page's state |
| `ImageUploader` | `image_uploader.dfy` | base-URL normalisation, endpoints, the order of `uploadImage`'s checks, `handleRemoveImage`, and the component's state |

Three modules are shared helpers:

- `Wrappers`: `Option` and `Result`.
- `Strings`: JavaScript's truthiness of an optional string, `length` in UTF-16 code units, `startsWith`, `endsWith`, `includes`, `split` and the decimal rendering of numbers.
- `Alerts`: severities, alerts, and the shape of a failed request.

Reducers are pure functions. Every component or store whose state the source updates is a class whose methods are proved against those functions.

Money is an integer number of cents, so the shipping fee of 5 is the constant 500. Tips and order totals are `real`.

## Model

| member | source | states |
|---|---|---|
| Cart.IndexOf | src/context/CartContext.tsx:47-49 | the position of the FIRST line with the id, or -1 exactly when no line has it |
| Cart.WithoutAppend | src/context/CartContext.tsx:76 | the filter distributes over concatenation, so the kept lines keep their relative order |
| Cart.AddItemEffect | src/context/CartContext.tsx:46-68 | a new id is appended as the payload; an existing id keeps length and order and raises only that line's quantity; either way the total rises by the payload's price times its quantity |
| Cart.RemoveItemEffect | src/context/CartContext.tsx:70-81 | every line with the id goes; the total drops by the first match's price times quantity; an absent id leaves the state unchanged |
| Cart.UpdateQuantityEffect | src/context/CartContext.tsx:83-98 | an absent id returns the state itself; otherwise, on a cart with unique ids, only the matching line changes, to any quantity (zero and negative included), and the total moves by price times the change |
| Cart.UpdatePreservesValid | src/context/CartContext.tsx:83-98 | UPDATE_QUANTITY keeps ids unique and the total equal to the sum, whatever the new quantity |
| Cart.AddPreservesValid | src/context/CartContext.tsx:46-68 | ADD_ITEM keeps the invariant when an id already present comes with its stored price |
| Cart.RemovePreservesValid | src/context/CartContext.tsx:70-81 | REMOVE_ITEM keeps the invariant |
| Cart.WithoutMembers | src/context/CartContext.tsx:76 | the filter keeps exactly the lines whose id differs |
| Cart.ReducePreservesValid | src/context/CartContext.tsx:46-102 | every action keeps ids unique and the total equal to the sum of price times quantity, provided an ADD for an existing id carries the stored price |
| Cart.ReducePreservesUnique | src/context/CartContext.tsx:46-102 | every action keeps the ids unique, with no proviso on the payload's price |
| Cart.ReplayPreservesUnique | src/context/CartContext.tsx:119-121 | replaying saved lines keeps the ids unique, even when the saved lines repeat an id |
| Cart.AddExistingKeepsTotalIff | src/context/CartContext.tsx:51-60 | on a valid cart, an ADD for an existing id keeps the total equal to the sum exactly when the payload's price is the stored one or its quantity is 0 |
| Cart.RepeatedAddToCart | src/context/CartContext.tsx:134-139 | n calls of `addToCart` on a product not yet in the cart give one line of quantity n and raise the total by n times the price |
| Cart.HydrateFromInitial | src/context/CartContext.tsx:114-124 | replaying a saved list with unique ids onto the initial state reproduces it, in order, with its sum as the total |
| Cart.CartProvider.constructor | src/context/CartContext.tsx:26-29 | the store starts with no lines and total 0 |
| Cart.CartProvider.Dispatch | src/context/CartContext.tsx:111 | the new state is the reducer's result; unique ids stay unique under every action, and a valid state stays valid under a price-consistent action |
| Cart.CartProvider.AddToCart | src/context/CartContext.tsx:134-139 | dispatches one unit of the product, so the total rises by exactly its price |
| Cart.CartProvider.RemoveFromCart | src/context/CartContext.tsx:141-143 | afterwards no line has the id |
| Cart.CartProvider.UpdateQuantity | src/context/CartContext.tsx:145-150 | the reducer's UPDATE_QUANTITY result, which keeps a valid cart valid |
| Cart.CartProvider.ClearCart | src/context/CartContext.tsx:100-102 | the state is exactly the initial state |
| Cart.CartProvider.Hydrate | src/context/CartContext.tsx:119-121 | the loop leaves the replay of the saved lines on the old state, keeping ids unique; from the initial state with unique saved ids, the saved list and its sum |
| Wishlist.AnyWithId | src/context/WishlistContext.tsx:113-115 | `some` is true exactly when an item has the id |
| Wishlist.WithoutMembers | src/context/WishlistContext.tsx:59 | the filter keeps exactly the items whose id differs |
| Wishlist.WithoutAppend | src/context/WishlistContext.tsx:59 | the filter distributes over concatenation, so the kept items keep their relative order |
| Wishlist.AddItemEffect | src/context/WishlistContext.tsx:45-53 | an id already present returns the state itself; a new id is appended at the end; the id is present afterwards |
| Wishlist.AddIdempotent | src/context/WishlistContext.tsx:45-49 | adding the same item twice equals adding it once |
| Wishlist.RemoveItemEffect | src/context/WishlistContext.tsx:56-61 | exactly the items with another id remain, none with the id; an absent id leaves the items unchanged |
| Wishlist.ReducePreservesUnique | src/context/WishlistContext.tsx:44-69 | every action keeps ids unique |
| Wishlist.HydrateKeepsFirstOccurrences | src/context/WishlistContext.tsx:77-88 | replaying a saved list from the initial state keeps the first occurrence of each id, in saved order, and drops later duplicates |
| Wishlist.WishlistProvider.constructor | src/context/WishlistContext.tsx:23-25 | the wishlist starts empty |
| Wishlist.WishlistProvider.Dispatch | src/context/WishlistContext.tsx:74 | the new state is the reducer's result, and unique ids stay unique |
| Wishlist.WishlistProvider.AddToWishlist | src/context/WishlistContext.tsx:98-103 | the item's id is in the wishlist afterwards |
| Wishlist.WishlistProvider.RemoveFromWishlist | src/context/WishlistContext.tsx:105-107 | the id is not in the wishlist afterwards |
| Wishlist.WishlistProvider.ClearWishlist | src/context/WishlistContext.tsx:63-65 | the state is exactly the initial, empty one |
| Wishlist.WishlistProvider.IsInWishlist | src/context/WishlistContext.tsx:113-115 | true exactly when some item has the id |
| Wishlist.WishlistProvider.Hydrate | src/context/WishlistContext.tsx:83-85 | the loop leaves the replay of the saved items on the old state |
| Auth.Rehydrate | src/lib/auth.ts:33-36 | loading restores exactly the persisted token and user, and the flag starts false |
| Auth.PersistRoundTrip | src/lib/auth.ts:33-36 | storing then loading keeps everything except `isAuthenticated` |
| Auth.AuthStore.constructor | src/lib/auth.ts:21-23 | no user, no token, not authenticated |
| Auth.AuthStore.SetUser | src/lib/auth.ts:24-25 | sets the user; the flag becomes "a user is present"; the token is unchanged |
| Auth.AuthStore.SetAccessToken | src/lib/auth.ts:26-27 | sets the token; the flag becomes "the token is non-empty"; the user is unchanged |
| Auth.AuthStore.Logout | src/lib/auth.ts:28-29 | user and token cleared, flag false |
| Auth.TokenThenNoUser | src/lib/auth.ts:24-27 | after a token and then a cleared user, the flag is false although the token is kept |
| Auth.UserThenNoToken | src/lib/auth.ts:24-27 | after a user and then a cleared token, the flag is false although the user is kept |
| Auth.IsAuthenticated | src/lib/auth.ts:71-74 | true exactly when the stored token exists and is non-empty |
| Auth.RequireAuthentication | src/lib/auth.ts:62-68 | fails with "Authentication required" exactly when not authenticated, and otherwise returns the stored token |
| Auth.HasRole | src/lib/auth.ts:77-80 | true exactly when a user is present and its role's name equals the required one |
| Auth.LoginRedirectUrl | src/lib/auth.ts:83-88 | `/login?redirect=` followed by the encoded path |
| Auth.WithAuth | src/lib/auth.ts:91-115 | redirects non-permanently to `/login` exactly when neither cookie nor header yields a token; otherwise the props hold the token (the cookie's first) and every other entry the wrapped handler returned, and nothing else |
| Auth.BearerHeader | src/lib/auth.ts:96 | a `Bearer <token>` header yields the token |
| Middleware.Decide | middleware.ts:4-14 | redirects to `/login` exactly when the cookie gives no token and the path starts with `/profile`; otherwise passes through |
| Middleware.HandleRedirectsIff | middleware.ts:9-19 | on the matcher's paths the cookie alone decides; paths outside the matcher always pass through |
| Middleware.ProfilesIsNotGuarded | middleware.ts:9-19 | `/profiles` passes the prefix test, but the matcher keeps it from being redirected |
| LoginForm.EmailError | src/components/auth/LoginForm.tsx:20-23 | no error exactly when the email is non-empty and well formed; an empty email is "Email is required" |
| LoginForm.PasswordError | src/components/auth/LoginForm.tsx:24-27 | no error exactly when the password's JavaScript `length` (UTF-16 code units) is at least 8, with the required and minimum-length messages |
| LoginForm.AstralPasswordLength | src/components/auth/LoginForm.tsx:24-27 | four letters and two emoji have a `length` of 8 and pass |
| LoginForm.Validate | src/components/auth/LoginForm.tsx:19-28 | the form passes exactly when the email is non-empty and well formed and the password's `length` is at least 8 |
| LoginForm.RedirectTarget | src/components/auth/LoginForm.tsx:87 | the `redirect` parameter when non-empty, otherwise `/dashboard` |
| LoginForm.Classify | src/components/auth/LoginForm.tsx:93-138 | each failure kind is characterised in both directions, in the chain's order: 401, then 403, then "not found"/"no exist", then "disabled"/"blocked", then 429, then any other response, then request only, then unexpected |
| LoginForm.AlertFor | src/components/auth/LoginForm.tsx:97-138 | every alert has text; warnings are exactly the unverified, not-found, too-many-attempts and unreachable kinds; a non-empty server message is shown as is |
| LoginForm.LoginFormState.constructor | src/components/auth/LoginForm.tsx:56-57 | not loading and no error |
| LoginForm.LoginFormState.Submit | src/components/auth/LoginForm.tsx:69-142 | a request is made exactly when the schema passes; a login stores token and user and navigates to the redirect target; a failure shows its classified alert and leaves the store alone; loading ends false |
| RegisterForm.UserNameError | src/components/auth/RegisterForm.tsx:15-20 | no error exactly when the name's `length` (UTF-16 code units) is 3 to 30 and every character is a letter, digit or underscore; the first failing rule's message otherwise |
| RegisterForm.AstralUserName | src/components/auth/RegisterForm.tsx:15-20 | two emoji have a `length` of 4, so they fail only the character rule |
| RegisterForm.UserNameLength | src/components/auth/RegisterForm.tsx:15-20 | an accepted name is ASCII, so it has 3 to 30 characters |
| RegisterForm.FirstLine | src/components/auth/RegisterForm.tsx:29-32 | the part of the input before its first line terminator, where a lookahead's `.*` stops |
| RegisterForm.FirstLineLookahead | src/components/auth/RegisterForm.tsx:29-32 | a lookahead `(?=.*[class])` succeeds exactly when the class occurs on the first line |
| RegisterForm.PasswordPatternMeaning | src/components/auth/RegisterForm.tsx:29-32 | the pattern holds exactly when the first line has a lowercase letter, an uppercase letter, a digit and one of `@$!%*?&`, and the first character is one of those kinds |
| RegisterForm.PasswordError | src/components/auth/RegisterForm.tsx:25-32 | no error exactly when the password's `length` (UTF-16 code units) is at least 8 and it matches the pattern |
| RegisterForm.AstralPassword | src/components/auth/RegisterForm.tsx:25-32 | `Aa1@` followed by two emoji has a `length` of 8 and is accepted |
| RegisterForm.SpaceAfterFirstCharacter | src/components/auth/RegisterForm.tsx:29-32 | the pattern is anchored only at the start, so `Aa1@ ~ ~` passes |
| RegisterForm.ConfirmPasswordError | src/components/auth/RegisterForm.tsx:33-36 | no error exactly when the confirmation is non-empty and equals the password |
| RegisterForm.Validate | src/components/auth/RegisterForm.tsx:14-37 | the form passes exactly when all four fields pass, lengths counted in UTF-16 code units |
| RegisterForm.Classify | src/components/auth/RegisterForm.tsx:104-158 | each failure kind is characterised in both directions: "already exists" or 409 first (email, then user name, then generic), then 400 (password, then email, then generic), then any other response, then request only, then unexpected |
| RegisterForm.AlertFor | src/components/auth/RegisterForm.tsx:108-158 | every alert has text; warnings are exactly the conflict and unreachable kinds; a non-empty server message is shown as is |
| RegisterForm.RegisterFormState.constructor | src/components/auth/RegisterForm.tsx:65-66 | not loading and no error |
| RegisterForm.RegisterFormState.Submit | src/components/auth/RegisterForm.tsx:76-162 | a request is made exactly when the schema passes; success shows a success alert and then goes to the confirmation page for the email; a failure shows its classified alert; loading ends false |
| ConfirmForm.CodeError | src/components/auth/ConfirmForm.tsx:11-16 | no error exactly when the code has at least 4 characters, all digits |
| ConfirmForm.ConfirmFailureKind | src/components/auth/ConfirmForm.tsx:80-109 | "expired"/"timeout" wins; then "invalid"/"incorrect"/400 keeps the default and shadows "already confirmed"/409; a request without a response is unreachable; anything else keeps the invalid-code default |
| ConfirmForm.ConfirmAlert | src/components/auth/ConfirmForm.tsx:80-109 | an error exactly for an invalid code, info exactly for an account already confirmed, never success |
| ConfirmForm.ConfirmFailureAlert | src/components/auth/ConfirmForm.tsx:80-111 | the step-by-step overwrite of the default message ends in the classified alert |
| ConfirmForm.ResendFailureKind | src/components/auth/ConfirmForm.tsx:136-168 | "already confirmed"/409, then "too many"/"limit"/429, then "not found"/404, each in both directions; a request without a response is unreachable; anything else keeps the warning default |
| ConfirmForm.ResendAlert | src/components/auth/ConfirmForm.tsx:136-168 | an error exactly when the email is not found, info exactly when already confirmed, never success |
| ConfirmForm.ResendFailureAlert | src/components/auth/ConfirmForm.tsx:136-170 | the step-by-step overwrite of the default message ends in the classified alert |
| ConfirmForm.SharedAlerts | src/components/auth/ConfirmForm.tsx:104-109 | both handlers give the same unreachable warning, and an already-confirmed confirmation is also already confirmed for resending |
| ConfirmForm.ConfirmFormState.constructor | src/components/auth/ConfirmForm.tsx:48-50 | no message, neither loading nor resending |
| ConfirmForm.ConfirmFormState.Submit | src/components/auth/ConfirmForm.tsx:56-115 | the code rule is checked first; a missing email shows its error and makes no request; otherwise success shows its alert and goes to `/login`, a failure shows the classified alert; loading ends false |
| ConfirmForm.ConfirmFormState.ResendCode | src/components/auth/ConfirmForm.tsx:117-174 | a missing email shows its error and makes no request; otherwise success says the code was sent, a failure shows the classified alert; resending ends false |
| Checkout.Put | src/app/checkout/page.tsx:48-54 | the named field takes the value and every other field is unchanged |
| Checkout.MissingRequiredField | src/app/checkout/page.tsx:74-85 | true exactly when some field of the ten is empty |
| Checkout.Tier | src/app/checkout/page.tsx:56-68 | the four tiers: exactly 0, at most 5, at most 15, above 15 |
| Checkout.TipTextsShareTiers | src/app/checkout/page.tsx:56-68 | two percentages get the same emoji, and the same message, exactly when they fall in the same tier |
| Checkout.OfferedTips | src/app/checkout/page.tsx:409-455 | the offered 0, 5, 10, 15 and 20 percent land in the tiers none, small, good, good and big |
| Checkout.TipAmount | src/app/checkout/page.tsx:36-39 | for a percentage between 0 and 100, the tip lies between 0 and the cart total; 0 percent gives no tip |
| Checkout.OrderTotal | src/app/checkout/page.tsx:42 | the total exceeds cart total plus shipping by exactly the tip |
| Checkout.OrderTotalMonotone | src/app/checkout/page.tsx:36-42 | a larger percentage never lowers the total |
| Checkout.OrderNumber | src/app/checkout/page.tsx:99 | the number lies in 100000..999999 |
| Checkout.OrderNumberText | src/app/checkout/page.tsx:99 | "CS" followed by six digits that read back as the number |
| Checkout.ScreenFor | src/app/checkout/page.tsx:121-179 | the empty-cart screen exactly when there are no items and the order is not complete; the confirmation exactly when it is complete |
| Checkout.CheckoutPage.constructor | src/app/checkout/page.tsx:13-33 | empty form, shipping 5, no tip, not processing, not complete, no order number, no error |
| Checkout.CheckoutPage.ChangeTip | src/app/checkout/page.tsx:44-46 | only the tip percentage changes |
| Checkout.CheckoutPage.ChangeInput | src/app/checkout/page.tsx:48-54 | only the named field changes |
| Checkout.CheckoutPage.Submit | src/app/checkout/page.tsx:70-118 | an empty field sets the fill-in error and changes nothing else; otherwise the order gets its number, processing ends, the order is complete, the cart is emptied and the confirmation shows |
| ImageUploader.CleanBaseUrl | src/components/products/ImageUploader.tsx:170-172 | exactly one trailing slash is stripped |
| ImageUploader.ApiUrl | src/components/products/ImageUploader.tsx:175-177 | `/api` is appended exactly when the cleaned base does not already contain it |
| ImageUploader.NormalisedHasNoTrailingSlash | src/components/products/ImageUploader.tsx:170-177 | unless the base ends in two slashes, the API URL does not end in a slash |
| ImageUploader.NormaliseIdempotent | src/components/products/ImageUploader.tsx:170-177 | normalising an already normalised base changes nothing |
| ImageUploader.HostNamedApi | src/components/products/ImageUploader.tsx:175-177 | the test is a substring test: `https://api.shop` already counts as containing `/api` |
| ImageUploader.DefaultBasesAgree | src/components/products/ImageUploader.tsx:167-177 | with no variable set, upload and delete use the same API URL `http://localhost:3000/api` |
| ImageUploader.ConfiguredBasesDiffer | src/components/products/ImageUploader.tsx:324-325 | with a configured base the delete URL is not normalised, so `http://h` uploads under `http://h/api` but deletes under `http://h` |
| ImageUploader.LookupUrlDistinct | src/components/products/ImageUploader.tsx:179-230 | the lookup and the upload go to different addresses, and the lookup address determines its file key |
| ImageUploader.LookedUp | src/components/products/ImageUploader.tsx:226-254 | a refused or failed lookup falls back to the CDN address; an answer with a non-empty `url` gives that `url`, and one without gives the empty string |
| ImageUploader.UploadOutcomeOrder | src/components/products/ImageUploader.tsx:196-259 | non-JSON fails before the status check, a refused upload before the file-key check, a missing key before any lookup; the reply's own URL is preferred; only an empty address fails an upload with a key |
| ImageUploader.UploadRequestsOrder | src/components/products/ImageUploader.tsx:187-233 | the upload address is requested first; the lookup address for the reply's file key follows exactly when the reply has a file key but no URL |
| ImageUploader.FailedLookupFallsBack | src/components/products/ImageUploader.tsx:238-259 | a lookup that throws or is refused never fails the upload: the image gets the CDN prefix followed by the file key |
| ImageUploader.ResolveImageUrl | src/components/products/ImageUploader.tsx:223-254 | the reply's URL when present, otherwise the lookup's result, requesting the lookup only then |
| ImageUploader.Upload | src/components/products/ImageUploader.tsx:163-278 | the try block's result and requests equal the specified outcome and request list |
| ImageUploader.UploadTo | src/components/products/ImageUploader.tsx:179-269 | from the API address on, the same outcome and the requests under that address |
| ImageUploader.ImageUploaderState.constructor | src/components/products/ImageUploader.tsx:25-29 | the initial image when one is given, no key, not uploading, no error, cropper closed |
| ImageUploader.RecordedEffect | src/components/products/ImageUploader.tsx:264-277 | recording a success shows the image, keeps its key, tells `onImageChange` the address and `onImageKeyChange` (when given) the key, and leaves the error; recording a failure sets the error and changes nothing else |
| ImageUploader.ImageUploaderState.UploadImage | src/components/products/ImageUploader.tsx:152-283 | the requests are those of the try block; the display is the try block's outcome recorded on the old display with the error cleared; uploading ends and the cropper closes either way |
| ImageUploader.ImageUploaderState.Record | src/components/products/ImageUploader.tsx:264-277 | the display becomes the outcome recorded on it; the uploading flag and the cropper are left alone |
| ImageUploader.ImageUploaderState.RemoveImage | src/components/products/ImageUploader.tsx:316-359 | without a key the image is cleared with no request; with one, one delete request; success clears image and key and tells the callbacks; failure records its message |

## Left out

- Persistence: `localStorage`, `JSON.parse`/`JSON.stringify` and their failure paths. Saved cart and wishlist contents are plain sequences passed to `Hydrate`. The cart's save effect (src/context/CartContext.tsx:127-131) and the wishlist's (src/context/WishlistContext.tsx:91-95) are not modelled.
- Cart.CartProvider.Hydrate: replays onto the current state. In the source the effect runs once on mount, so that state is the initial one. The saved `total` is never read, as in the source.
- Auth.WithAuth: the wrapped `getServerSideProps` is not called. The object it returned is a parameter, modelled as a string map. Values other than strings are not modelled.
- Auth.User: the optional creation and update dates are left out.
- `encodeURIComponent`: the encoded path and the encoded email are inputs.
- yup: the email-format check is an input flag. When a field breaks several rules, only the FIRST message (in the declared order) is stated. Which rule yup reports then is not modelled.
- The server's `message` is taken to be a string. An array or other value would make `includes` behave differently, and that is not modelled.
- Checkout.TipAmount: the `toFixed(2)` rounding is not modelled; the tip is the exact real quotient.
- Prices, totals and shipping are integer cents, not floating point.
- Timers and `router.push`: the methods return the target they would navigate to. The delays are not modelled.
- `Math.random`: the draw is a parameter in [0, 1).
- Checkout.CheckoutPage.Submit: the `catch` branch (src/app/checkout/page.tsx:112-117) is not modelled, because nothing in the `try` can throw once the random draw is a parameter. The simulated delay is left out.
- Checkout.TipEmoji: keeps the code points the source file holds. These are mis-decoded emoji: U+F8FF followed by Latin-1 letters, not the intended faces.
- `refreshNavbar`, the navigation badges and every rendered element are not part of this model.
- ImageUploader: image cropping, the canvas, `FileReader` and blobs are not modelled. `handleCropConfirm` and `handleCropCancel` are not part of this model.
- ImageUploader: the `Authorization` header is not modelled. A body of the JSON literal `null` (parsed, but without fields) is treated as a body without a file key. The source instead fails reading `data.fileKey` and shows the JavaScript engine's `TypeError` message, not "No se recibió fileKey en la respuesta"; the model gives the latter. Console logging is left out.
- The callbacks `onImageChange` and `onImageKeyChange` are recorded as the sequences of values they receive.
- LoginForm.LoginFormState.Submit: the alert shows before `finally` runs. Both are modelled as one step, because nothing can observe the state in between.
- React's rendering, `StrictMode` double effects and concurrency are not modelled. Each call runs to completion.
