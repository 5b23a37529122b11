# E-commerce backend: access control and record updates, in Dafny

This project models the request handlers and middleware of an Express/Mongoose e-commerce backend. It covers:

- orders and refunds;
- carts;
- categories;
- accounts and tokens;
- coupons;
- products;
- the user search.

It also covers the authentication, role and user-protection middleware.

Each Mongo collection is an in-memory `map` from id to record, held in a class field that the handler methods reassign. A handler returns the HTTP status it answers with, plus the record it returns where there is one. What is proved:

- which branch each handler takes, and in what order its guards run;
- exactly what each handler writes and what it leaves alone;
- invariants the handlers keep:
  - reviews belong to the order's owner;
  - one cart item per product;
  - unique subcategory names, under `addSubcategory` and `removeSubcategory` (`createCategory` and `updateCategory` store the given list unchecked);
  - unique coupon codes;
  - the product creation order matches the stored products.
- the pagination arithmetic;
- the string handling of JavaScript's `split` and `trim`, by round-trip lemmas.

Layout, one module per file:

| file | module | models |
|---|---|---|
| common.dfy | `Common` | ids, roles, status codes, `Option`; JavaScript `split`/`join`, `trim`, `findIndex`, `filter` |
| paging.dfy | `Paging` | `skip`, `limit` and `Math.ceil(total / limit)` |
| orders.dfy | `Orders` | src/controllers/orderController.js |
| returns.dfy | `Returns` | src/controllers/returnController.js |
| carts.dfy | `Carts` | src/controllers/cartController.js |
| categories.dfy | `Categories` | src/controllers/categoryController.js |
| auth.dfy | `Auth` | src/controllers/authController.js |
| auth_middleware.dfy | `AuthMiddleware` | src/middlewares/authMiddleware.js |
| role_auth.dfy | `RoleBasedAuth` | src/middlewares/roleBasedAuth.js |
| user_middleware.dfy | `UserMiddleware` | src/middlewares/usermiddleware.js |
| coupons.dfy | `Coupons` | src/controllers/couponController.js |
| products.dfy | `Products` | src/controllers/productController.js |
| users.dfy | `UserSearch` | src/controllers/userController.js |

Conventions:

- `req.user`, as the controllers read it, is a `Common.Caller(userId, role)`.
- Request fields that the code tests for truthiness, or gives defaults, are `Option`s. `Common.Truthy` is JavaScript truthiness for an optional string.
- The id of a newly saved document is a parameter the store does not yet hold.
- `findOne`, which may match several documents, picks any one of them (a `:|` choice).
- bcrypt and JWT are the uninterpreted function fields `hash`, `compare`, `sign` and `verify` of `Auth.AuthController`.
- The `phone_no` clause of `userExists`'s query is the uninterpreted field `phoneClause` of `Auth.AuthController`, since the schema has no such path.
- The regular-expression name match of `getUser` is an uninterpreted parameter.
- `utils/constants.js` is not part of this model. Its role constants are taken to be the strings the schema enumerates: `"customer"`, `"vendor"` and `"admin"`.

Known defects of the source that the model keeps as written, each with a lemma showing its effect:

- `authenticate` looks the user up by the claim `id`, but `signIn` signs `userId` (src/middlewares/authMiddleware.js:27 vs src/controllers/authController.js:46).
  - The claim is a parameter of `AuthMiddleware.Authenticate`.
  - `RoleBasedAuth.SessionTokenAlwaysForbidden` shows that, with the claim as written and the blacklist import repaired, every role gate answers 403 to a freshly signed-in user.
  - `RoleBasedAuth.SessionTokenAdmittedByUserId` shows what the `userId` claim would give.
- `roleAuth`'s 401 "Authentication failed." is never sent. `authenticate` never calls its callback with an error, so a failed authentication ends the request with authenticate's own 401 or 400. `RoleBasedAuth.HaltCodes` shows that a gate answers 401 exactly when the token is missing or blacklisted.
- Nothing in the order or return controllers sets `refundStatus` to `"pending"`. From a store without a pending refund, `updateRefundStatus` therefore never succeeds (`Returns.UpdateRefundStatus`, last ensures, with the `NoRefundPending` invariant every order handler keeps).

## Model

| member | source | states |
|---|---|---|
| Common.Split | src/middlewares/usermiddleware.js:9 | `split` never yields an empty list of pieces |
| Common.SplitJoin | src/middlewares/usermiddleware.js:9 | joining the pieces of a split with the separator gives back the string |
| Common.JoinSplit | src/middlewares/usermiddleware.js:9 | splitting a join of separator-free pieces gives back the pieces |
| Common.SplitPiecesFree | src/middlewares/usermiddleware.js:9 | no piece of a split contains the separator |
| Common.SplitAfterWord | src/controllers/authController.js:61 | a separator-free word followed by the separator splits off as the first piece |
| Common.SplitNoSep | src/controllers/authController.js:61 | a string without the separator splits into itself |
| Common.SplitTwo | src/middlewares/usermiddleware.js:6-9 | `a,b` with comma-free `a` and `b` splits into exactly `[a, b]` |
| Common.At | src/middlewares/authMiddleware.js:7 | indexing past the end gives `undefined` (None), otherwise the element |
| Common.TrimStart | src/controllers/couponController.js:18 | the result is a suffix of the input, starts with no whitespace, and only whitespace was removed |
| Common.TrimEnd | src/controllers/couponController.js:18 | the result is a prefix of the input, ends with no whitespace, and only whitespace was removed |
| Common.Trim | src/controllers/couponController.js:18 | the result is no longer than the input and has no leading or trailing whitespace |
| Common.TrimSlice | src/controllers/productController.js:18-19 | `trim` returns a slice of the input, and everything cut off on either side is whitespace |
| Common.TrimIdempotent | src/controllers/productController.js:18-19 | trimming a trimmed string changes nothing |
| Common.FindIndex | src/controllers/cartController.js:16 | -1 exactly when no element matches; otherwise the first matching index |
| Common.Filter | src/controllers/cartController.js:37 | the result keeps only matching elements, each taken from the input, and keeps every matching element |
| Common.FilterAppend | src/controllers/categoryController.js:93-95 | filtering distributes over concatenation, so kept elements stay in their relative order |
| Common.FilterAll | src/controllers/categoryController.js:93-95 | when every element matches, the filter returns the input unchanged |
| Common.FilterDistinct | src/controllers/productController.js:51 | filtering a repetition-free sequence gives a repetition-free sequence |
| Common.DistinctCard | src/controllers/productController.js:101 | a repetition-free sequence has as many elements as its set of elements |
| Common.Reverse | src/controllers/productController.js:99 | the result is the input read back to front, index by index |
| Paging.Skip | src/controllers/productController.js:94 | the pages before `page` hold `skip` entries and page `page` ends at `page * limit`; nothing is skipped exactly on page 1 (or with limit 0) |
| Paging.TotalPages | src/controllers/productController.js:114 | `Math.ceil(total / limit)`: the pages hold every entry, and the last page is not empty |
| Paging.TotalPagesUnique | src/controllers/userController.js:41 | any page count with those two properties equals `TotalPages` |
| Paging.Page | src/controllers/productController.js:94-98 | a page has at most `limit` entries, and entry `k` is entry `skip + k` of the listing |
| Paging.EntryOnPage | src/controllers/productController.js:94-98 | every listed entry is on page `k / limit + 1` at position `k % limit`, and that page is within `totalPages` |
| Paging.EmptyPage | src/controllers/productController.js:103-105 | a page is empty exactly when `skip` reaches the end of the listing |
| Paging.PageNonEmptyIff | src/controllers/productController.js:103-105 | a page is non-empty exactly when its number is at most `totalPages` |
| Orders.ReviewKeepsWellFormed | src/controllers/orderController.js:134-143 | appending the owner's own review keeps every review the owner's |
| Orders.ReplaceKeepsInvariants | src/controllers/orderController.js:69 | replacing an order without changing its owner keeps the store invariants |
| Orders.OrderStore.CreateOrder | src/controllers/orderController.js:4-20 | the caller becomes the owner; the status is the given one, or "pending" by default; no tracking, reviews, return or refund; the schema's payment default |
| Orders.OrderStore.GetAllOrders | src/controllers/orderController.js:23-33 | non-admins get 403 and nothing; admins get the whole store |
| Orders.OrderStore.GetMyOrders | src/controllers/orderController.js:36-44 | exactly the orders whose `user` is the caller |
| Orders.OrderStore.GetOrderById | src/controllers/orderController.js:47-59 | 404 for a missing id, then 403 unless the caller is admin or owner; 200 answers exactly in the allowed case |
| Orders.OrderStore.UpdateOrderStatus | src/controllers/orderController.js:62-75 | 403 for non-admins before any lookup, store unchanged; then 404; otherwise only `status` changes, to any given string (an absent one is stripped and changes nothing) |
| Orders.OrderStore.DeleteOrder | src/controllers/orderController.js:78-90 | 403 for non-admins before any lookup; 404 for a missing id; otherwise removes only the target |
| Orders.OrderStore.AddTrackingInfo | src/controllers/orderController.js:93-106 | admin or vendor, checked before the lookup; only `trackingInfo` changes |
| Orders.OrderStore.GetTrackingInfo | src/controllers/orderController.js:109-125 | 404, then 403 unless admin, vendor or owner; a missing or empty value is answered as null |
| Orders.OrderStore.LeaveReview | src/controllers/orderController.js:128-149 | owner only; the caller's review is appended, earlier reviews are kept, and the count grows by one |
| Orders.OrderStore.RaiseReturnRequest | src/controllers/orderController.js:152-172 | owner only; `returnRequest` becomes a pending request with the reason, and `refundStatus` is untouched |
| Orders.OrderStore.MarkOrderDelivered | src/controllers/orderController.js:175-187 | admin or vendor, checked before the lookup; only `status` changes, to "delivered" |
| Orders.OrderStore.MarkOrderShipped | src/controllers/orderController.js:277-289 | vendors only, checked before the lookup; `status` becomes "shipped" whatever it was, nothing else changes |
| Returns.Decide | src/controllers/returnController.js:26-30 | approval sets the refund approved and payment and order "refunded"; rejection changes only `refundStatus`; either way the refund is no longer pending |
| Returns.FindByOrderId | src/controllers/returnController.js:15 | finds an order carrying the orderId exactly when there is one |
| Returns.UpdateRefundStatus | src/controllers/returnController.js:6-38 | 400 for a status other than approved or rejected, before the lookup; 404 when no order matches; 400 when not pending; otherwise exactly the decision is saved; the store is unchanged on every failure; no success is possible without a pending refund |
| Returns.RepeatedDecisionRefused | src/controllers/returnController.js:21-26 | with one order per orderId, a second decision after a successful one is refused with 400 |
| Returns.SingletonMatch | src/controllers/returnController.js:15 | at most one match that includes `id` means the match is exactly `id` |
| Carts.AddItem | src/controllers/cartController.js:16-21 | merges the quantity into the first item for the product, or appends a new item at the end; some item of the result is for the product; the other items are unchanged |
| Carts.SetQuantity | src/controllers/cartController.js:53-56 | only the first matching item's quantity changes; the length is kept |
| Carts.RemoveItemSpec | src/controllers/cartController.js:37 | no item for the product is left; every other item is kept, in its relative order |
| Carts.AddKeepsOneItemPerProduct | src/controllers/cartController.js:16-21 | adding keeps one item per product |
| Carts.AddItemCount | src/controllers/cartController.js:17-20 | a product already in the cart keeps the item count; a new one adds exactly one |
| Carts.SetKeepsOneItemPerProduct | src/controllers/cartController.js:56 | setting a quantity keeps one item per product |
| Carts.RemoveKeepsOneItemPerProduct | src/controllers/cartController.js:37 | removing keeps one item per product |
| Carts.CartStore.ItemsOf | src/controllers/cartController.js:9-11 | the caller's stored items, or no items for a user without a cart |
| Carts.CartStore.AddToCart | src/controllers/cartController.js:5-27 | 404 for an unknown product, nothing saved; otherwise the caller's cart, created empty if missing, gets the merged or appended item, with quantity 1 by default |
| Carts.CartStore.RemoveFromCart | src/controllers/cartController.js:30-43 | 404 without a cart; otherwise the filtered items |
| Carts.CartStore.UpdateCartItem | src/controllers/cartController.js:46-62 | 404 without a cart, 404 without the product in it; otherwise only that item's quantity changes |
| Carts.CartStore.GetCart | src/controllers/cartController.js:65-74 | the caller's cart, or 404 |
| Carts.CartStore.ClearCart | src/controllers/cartController.js:77-88 | 404 without a cart; otherwise the cart is kept with no items |
| Categories.RemoveSubcategorySpec | src/controllers/categoryController.js:93-95 | no subcategory with the id is left; an id that is not there leaves the list unchanged; the others keep their order |
| Categories.RemoveKeepsNamesUnique | src/controllers/categoryController.js:93-95 | removing keeps subcategory names unique |
| Categories.CategoryStore.CreateCategory | src/controllers/categoryController.js:4-16 | 400 for a name some category has; otherwise stored, with no subcategories by default |
| Categories.CategoryStore.GetCategoryById | src/controllers/categoryController.js:29-38 | the category, or 404 |
| Categories.CategoryStore.UpdateCategory | src/controllers/categoryController.js:41-55 | 404 for an unknown id; otherwise each given field replaces the stored one, and an absent one is kept |
| Categories.CategoryStore.DeleteCategory | src/controllers/categoryController.js:58-67 | 404 for an unknown id; otherwise removes only that category |
| Categories.CategoryStore.AddSubcategory | src/controllers/categoryController.js:70-85 | 404, then 400 for a duplicate name; otherwise appends exactly one subcategory; unique names stay unique |
| Categories.CategoryStore.RemoveSubcategory | src/controllers/categoryController.js:88-101 | 404 for an unknown category; an unknown subcategory id is no error; the filter result is stored |
| Auth.BearerSplit | src/controllers/authController.js:60-61 | a header starting with "Bearer " splits on spaces into "Bearer" and at least one more piece |
| Auth.BearerToken | src/controllers/authController.js:60-61 | a token is taken exactly when the header starts with "Bearer ", and it is the second space-separated piece |
| Auth.BearerTokenOf | src/controllers/authController.js:58-61 | the header `Bearer <token>` for a space-free token yields exactly that token |
| Auth.AuthController.UserExists | utils/helperFunc.js:48-53 | a user with that email always makes it true; it is true only when some user matches the email clause or the phone clause |
| Auth.UserExistsReadings | utils/helperFunc.js:48-53 | with a phone clause that matches nothing it is exactly "the email is taken"; with one that matches everything it is "some user is stored" |
| Auth.AuthController.IsTokenBlacklisted | src/controllers/authController.js:11 | true exactly when the token occurs at some position of the blacklist |
| Auth.AuthController.SignUp | src/controllers/authController.js:14-34 | 400 when `userExists` finds a user (always when the email is taken), nothing stored; otherwise 201, the hashed password is stored, and the role is the given one or customer when none is given |
| Auth.AuthController.SignIn | src/controllers/authController.js:37-54 | both failures give the same 400 "Invalid credentials" with no token; success needs a user with the email whose password matches, and returns a one-day token over that user's id and role |
| Auth.AuthController.SignOut | src/controllers/authController.js:57-65 | always 200; a Bearer header's token is appended, nothing else; a token is blacklisted afterwards exactly when it was before or is this one |
| Auth.AuthController.ForgotPassword | src/controllers/authController.js:68-87 | 404 for an unknown email; otherwise a fifteen-minute reset token over that user's id |
| Auth.AuthController.ResetPassword | src/controllers/authController.js:90-106 | a blacklisted token gets 400 before verification, users unchanged; then 400 for a token that does not verify; then 404 without a known `userId` claim; otherwise only that user's password becomes the hash of the new one |
| Auth.SignOutKeepsEarlierTokens | src/controllers/authController.js:8-11 | the blacklist only grows, and a signed-out token stays blacklisted |
| Auth.SignedOutTokenCannotReset | src/controllers/authController.js:57-106 | after signing out with a token, a reset with it is refused with 400 and changes no user |
| AuthMiddleware.HeaderToken | src/middlewares/authMiddleware.js:7 | the token is the second space-separated piece of the header, or nothing |
| AuthMiddleware.LoadUser | src/middlewares/authMiddleware.js:27-28 | `req.user` is the user the claim names, or null when the claim is absent or names nobody |
| AuthMiddleware.Authenticate | src/middlewares/authMiddleware.js:6-36 | a missing token gets 401; then a blacklisted token gets 401 before verification; then an unverifiable one gets 400; otherwise `next` runs with the loaded user |
| AuthMiddleware.AuthenticateAsWritten | src/middlewares/authMiddleware.js:4-22 | with the blacklist import undefined, a missing token gets 401 and every request carrying a token gets no answer |
| AuthMiddleware.AsWrittenAgreesWhereItAnswers | src/middlewares/authMiddleware.js:6-14 | where the as-written middleware answers, it answers as the repaired one does, whatever the blacklist |
| AuthMiddleware.BearerRequestUnanswered | src/middlewares/authMiddleware.js:7-17 | as written, a request with a Bearer token is never answered |
| AuthMiddleware.HeaderTokenIsBearerToken | src/middlewares/authMiddleware.js:7 | for a Bearer header, the middleware reads the same token `signOut` blacklists |
| AuthMiddleware.SignedOutTokenRefused | src/middlewares/authMiddleware.js:17-22 | a signed-out token is refused with 401 whatever it verifies to |
| AuthMiddleware.PassOnlyWhenVerified | src/middlewares/authMiddleware.js:9-35 | `next` runs exactly for a present, non-blacklisted, verifying token |
| AuthMiddleware.SessionTokenLoadsNoUser | src/middlewares/authMiddleware.js:27 | with the claim as written, a `signIn` token sets `req.user` to null |
| AuthMiddleware.SessionTokenLoadsUserByUserId | src/middlewares/authMiddleware.js:27 | looked up by `userId`, the same token loads the user it was issued to |
| RoleBasedAuth.RoleAuth | src/middlewares/roleBasedAuth.js:5-29 | the request goes on exactly when authentication passed with a user whose role is allowed; otherwise 403 after a pass, or authenticate's own refusal |
| RoleBasedAuth.DefaultRoleAuth | src/middlewares/roleBasedAuth.js:5-21 | with the default empty role list nobody is admitted |
| RoleBasedAuth.AdminAuth | src/middlewares/roleBasedAuth.js:32 | admits exactly the authenticated admins; authenticate's refusal stands |
| RoleBasedAuth.CustomerAuth | src/middlewares/roleBasedAuth.js:33 | admits exactly the authenticated customers; authenticate's refusal stands |
| RoleBasedAuth.VendorAuth | src/middlewares/roleBasedAuth.js:34 | admits exactly the authenticated vendors; authenticate's refusal stands |
| RoleBasedAuth.PrebuiltGatesAdmitOneRole | src/middlewares/roleBasedAuth.js:32-34 | no request passes two of the admin, customer and vendor gates |
| RoleBasedAuth.HaltCodes | src/middlewares/roleBasedAuth.js:13-18 | over every request, a gate answers 401 exactly when the token is missing or blacklisted, 400 exactly when it does not verify, and otherwise only 403 |
| RoleBasedAuth.MoreRolesAdmitMore | src/middlewares/roleBasedAuth.js:21 | widening the allowed roles never turns away an admitted request |
| RoleBasedAuth.SessionTokenAlwaysForbidden | src/middlewares/roleBasedAuth.js:21-27 | as written, a signed-in user's token gets 403 from every gate |
| RoleBasedAuth.SessionTokenAdmittedByUserId | src/middlewares/roleBasedAuth.js:21-27 | with the `userId` lookup, that token is admitted exactly when the user's role is allowed |
| UserMiddleware.RoleQuery | src/middlewares/usermiddleware.js:5-7 | a missing or empty role query becomes "customer,vendor" |
| UserMiddleware.AdminGetUsers | src/middlewares/usermiddleware.js:3-20 | 403 exactly when a comma-separated piece of the query is "admin"; otherwise `next` |
| UserMiddleware.DefaultQueryAllowed | src/middlewares/usermiddleware.js:5-19 | the default query lists customer and vendor, and is let through |
| UserMiddleware.AdminGetUsersIff | src/middlewares/usermiddleware.js:9-19 | a query written as a list of roles is refused exactly when "admin" is in the list |
| UserMiddleware.AdminDeleteOrUpdateUser | src/middlewares/usermiddleware.js:22-60 | 404 for a missing target; 500 without a request user; 403 when the caller is neither the target nor an admin |
| UserMiddleware.AdminDeleteOrUpdateUserIff | src/middlewares/usermiddleware.js:33-52 | the guard passes exactly when the caller is an admin, or is the target and the target is not an admin |
| UserMiddleware.NonAdminNeverTouchesAdmin | src/middlewares/usermiddleware.js:45-50 | a non-admin never passes for an admin account |
| Coupons.Pick | src/controllers/couponController.js:17-28 | exactly the given body fields among the named ones, with their values |
| Coupons.ApplyPatch | src/controllers/couponController.js:59 | given fields replace stored ones and others stay; creator, role and users untouched |
| Coupons.AssignTerms | src/controllers/couponController.js:106-114 | every upsert field takes the body's value, or is unset when the body lacks it; other terms stay |
| Coupons.ReplaceKeepsUniqueCodes | src/models/coupon.js:2-6 | replacing a coupon by one with an unshared code keeps codes unique |
| Coupons.CreateForFreshCodeKeepsUniqueCodes | src/controllers/couponController.js:121-135 | creating for an unused code keeps codes unique |
| Coupons.CouponStore.CreateCoupon | src/controllers/couponController.js:4-36 | 400 without user id or role, then 403 unless admin or vendor; success exactly for a present code whose trimmed form is unused; it stores the trimmed code, the body's terms, the creator and the role |
| Coupons.CouponStore.EditCoupon | src/controllers/couponController.js:39-65 | 400, then 404, then 403; succeeds exactly for admin or creator, absent a code clash; codes stay unique |
| Coupons.CouponStore.GetCouponUsage | src/controllers/couponController.js:69-90 | 404 for an unknown code; otherwise `usedCount` is the number of `usedBy`, taken from the coupon with that code |
| Coupons.CouponStore.UpsertCoupon | src/controllers/couponController.js:93-139 | creates exactly when no coupon has the code; otherwise 500 for a coupon without a creator, 403 for a caller who is neither its creator nor an admin, and 200 for one who is, rewriting the terms with code and creator unchanged; codes stay unique |
| Products.NewProduct | src/controllers/productController.js:16-20 | stored `createdBy` trimmed, name trimmed when given, other fields kept |
| Products.ApplyPatch | src/controllers/productController.js:79-82 | given fields replace the stored ones, others stay |
| Products.ProductStore.NewestFirst | src/controllers/productController.js:96-99 | the listing holds every stored product once |
| Products.ProductStore.Resolve | src/controllers/productController.js:96 | the records of the listed ids, in order |
| Products.ProductStore.AddProduct | src/controllers/productController.js:4-28 | 400 without creator or role, then 403 unless vendor or admin; otherwise the product is stored and recorded as newest |
| Products.ProductStore.DeleteProduct | src/controllers/productController.js:31-56 | 400, then 205 for a missing product, then 403; succeeds exactly for admin or creator, removing only the target |
| Products.ProductStore.UpdateProduct | src/controllers/productController.js:59-88 | same checks and codes; succeeds exactly for admin or creator, with the patch applied to that product alone |
| Products.ProductStore.GetAllProducts | src/controllers/productController.js:91-120 | the requested page of the newest-first listing (page 1, limit 10 by default); 205 exactly when the page is empty, which is when the page is past `totalPages`; otherwise 200 with total and `totalPages` |
| UserSearch.MatchingUsers | src/controllers/userController.js:31-36 | exactly the users meeting every filter constraint and the name pattern |
| UserSearch.GetUser | src/controllers/userController.js:3-47 | customers get 403; a vendor's filter always restricts to customers; id, email and name constrain only when given; ascending exactly for "asc"; skip is `(page - 1) * limit`; total counts the matches; `totalPages` is the ceiling; a vendor only ever sees customers |
| UserSearch.UnconstrainedSearchSeesAll | src/controllers/userController.js:6-16 | a caller with no role, or an admin, giving no constraint counts every user, admins included |

## Left out

- Email delivery: the welcome and reset mails of utils/helperFunc.js are I/O. `forgotPassword`'s send is a no-op, and the reset token is returned instead.
- Cryptography and expiry: bcrypt and JWT are uninterpreted functions. Token expiry (`"1d"`, `"15m"`) is passed to `sign` but its effect on `verify` over time is not modelled, since there is no clock.
- Mongoose schema behaviour is left out: validation, the `strict` mode that drops undeclared fields, `populate`, and timestamps.
- The `date: new Date()` of a review and of a return request (`src/controllers/orderController.js:142`, `:164`) is left out, since there is no clock. `Orders.Review` and `Orders.ReturnRequest` carry no date.
  - `createdBy` and `createdRole` are not declared in `src/models/coupon.js` and `src/models/products.js`. The model stores them, as the coupon and product controllers intend.
- The unique index on category names (`src/models/category.js:8`) is left out. `createCategory` checks names itself; an `updateCategory` that clashes on a name would fail in the database.
- Categories.CategoryStore.UpdateCategory: it does not model a rename failing on the unique index.
- Email normalisation: the schema's `lowercase` and `trim` on emails are left out. Emails are compared as given.
- Auth.AuthController.UserExists: what the `phone_no` clause matches is not fixed. The schema has no such path, so it matches nothing or every document depending on the driver's filter mode; the model leaves it uninterpreted.
- Auth.AuthController.SignIn: with several users sharing an email, `findOne` picks any one of them. Success is promised only when every such user's password matches or none does; with a unique email this is exact.
- Route wiring (app.js, src/routes/*.js) is left out. So are CORS and listening, and `getAllCategories`, a plain read that no candidate property concerns.
  - The category routes name the parameter `:categoryId` while the handlers read `:id`. The model uses the id the handlers read.
- The stub handlers of `src/controllers/orderController.js` (everything between `markOrderDelivered` and `markOrderShipped`, and after it) only answer constant messages.
- Query-string parsing is left out. `parseInt` of page and limit is taken to give positive integers (`Paging.Pos`), and `req.query.role` is taken to be one string. An array would be joined with commas first.
- Sorting is not modelled.
  - UserSearch.GetUser: it returns the query and the counts, not the sorted page of users. Sorting by an arbitrary field is not modelled.
  - Products.ProductStore.GetAllProducts: products created at the same instant are listed in creation order.
- Calling `findById` with a malformed ObjectId makes the database throw (500, or 400 in `resetPassword`). All ids are taken as well formed.
- Express and the promise plumbing are left out. In `roleAuth` the wrapping promise never settles after a refusal (it is never resolved or rejected); only the answers sent are modelled.
- AuthMiddleware.Authenticate: it repairs the blacklist import. `require('../controllers/authController').blacklist` is `undefined`, because the controller exports no such name. As written, `blacklist.includes(token)` then throws outside the `try` for every request that carries a token. Plain `authenticate` then rejects unhandled, `roleAuth`'s callback is never called, and the request gets no answer (`AuthMiddleware.AuthenticateAsWritten`, `AuthMiddleware.BearerRequestUnanswered`). `Authenticate` and the role gates are modelled over the controller's one shared blacklist instead.
- Orders.OrderStore.CreateOrder, and every handler that reads `req.user.userId`, take the caller's id as given. The user document that `authenticate` loads has `_id`, not `userId`.
- Coupons.CouponStore.UpsertCoupon: the code is taken as given. A body without a code would make `findOne({ code: undefined })` match an arbitrary coupon.
- Coupons.CouponStore.EditCoupon: the body is taken to change only the code and the terms, not the creator fields.
