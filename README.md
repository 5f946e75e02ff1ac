# Price app: pricing core, account-scoped repositories and plan gating

This project is a Dafny model of the core of a small pricing SaaS. A business
signs up under an **account**. It registers the **supplies** it buys, each with a
unit cost. It composes **products** out of supply lines and sets four
**settings** for its costs: tax rate, profit margin, other fixed costs and other
percentage costs. The app then recommends a **selling price**:

    sellingPrice = (suppliesCost + otherFixedCosts) / (1 - (tax + otherPercentages + profit) / 100)

This makes tax, the other percentage costs and profit shares of the selling
price, not mark-ups on the cost.

The model covers:

- **Pricing** (`pricing.dfy`): `calculatePrice` and `calculatePriceFromCost`.
- **Store** (`store.dfy`): the Firestore collections the repositories share.
  A collection is a map from document id to a document with its owning
  account, its `createdAt`/`updatedAt` server timestamps and its own fields.
  This module holds the ownership checks, the listing ordered by creation time
  (newest first) and the "fetch N+1, trim" cursor pagination.
- **Repositories** for supplies, products, materials, settings and accounts.
  Each is a class whose `docs` map and server `clock` change in place; every
  write stamps the clock and advances it.
- **Settings service** (`settings_service.dfy`): get-or-create and the
  validated update.
- **Stripe webhook** (`stripe.dfy`): the handler that turns a subscription
  event into an update of the customer's user record.
- **Plan table and feature flags** (`plan_config.dfy`,
  `feature_flags_server.dfy`, `feature_flags_client.dfy`): FREE and PRO,
  their features and quotas, and the server and client gating functions.
- **Route guard** (`middleware.dfy`): the session-cookie check on
  `/dashboard`. This includes the raw-header fallback search
  `(?:^|;\s*)session=([^;]+)`.
- **Product editor and price panel** (`product_form.dfy`,
  `price_breakdown.dfy`): the editor state (add, remove and edit lines,
  automatic recalculation, submit check) and the price-issue indicator.

Amounts are exact reals. Document ids are natural numbers. A query without
`orderBy` returns documents in id order, and "the first document" of such a
query is the least id. The caller's account is a parameter of each
repository operation.

## Model

| member | source | states |
|---|---|---|
| Pricing.CalculatePrice | domains/products/pricing/calculatePrice.ts:60-94 | Supplies cost is the left fold of unit price times quantity. Total is supplies plus fixed costs. `percentagesTotal` is the sum of the three rates. The selling price, less its percentage share, is exactly the total cost. With no percentages the price equals the cost. The breakdown echoes the three rates. |
| Pricing.CalculatePriceFromCost | domains/products/pricing/calculatePrice.ts:108-131 | The same fields as `calculatePrice`, with the supplies cost given directly. |
| Pricing.FromCostAgrees | domains/products/pricing/calculatePrice.ts:60-131 | Both entry points give the identical result once the lines are summed. |
| Pricing.SuppliesCostSmall | domains/products/pricing/calculatePrice.ts:65-68 | The fold over no lines is 0; over one line it is that line's unit price times quantity. |
| Pricing.SuppliesCostAppend | domains/products/pricing/calculatePrice.ts:65-68 | The supplies cost of two concatenated groups of lines is the sum of their costs. |
| Pricing.SuppliesCostPrefix | domains/products/pricing/calculatePrice.ts:65-68 | Extending a prefix by one line adds exactly that line's cost. |
| Pricing.SuppliesCostRemove | domains/products/pricing/calculatePrice.ts:65-68 | Removing one line takes exactly its cost off the total. |
| Pricing.MultisetRemove | domains/products/pricing/calculatePrice.ts:65-68 | Removing the element at an index removes one copy of it from the list's multiset. |
| Pricing.SuppliesCostPermutation | domains/products/pricing/calculatePrice.ts:65-68 | Any reordering of the lines (same multiset) has the same supplies cost. |
| Pricing.PriceIndependentOfLineOrder | domains/products/pricing/calculatePrice.ts:60-94 | The whole calculation depends on the lines only through their multiset. |
| Pricing.PercentagesAreSharesOfPrice | domains/products/pricing/calculatePrice.ts:75-80 | Selling price minus total cost equals the percentage share of the selling price. |
| Pricing.PriceCoversCost | domains/products/pricing/calculatePrice.ts:75-80 | With percentages in [0, 100) and a non-negative cost, the selling price is at least the cost. |
| Pricing.DocumentedExample | domains/products/pricing/calculatePrice.ts:40-58 | The documented example (10×5 + 20×2, fixed 10, 15% + 5% + 30%) gives cost 90, total 100, 50% and price 200. |
| Store.GetOwned | domains/supplies/repositories/supplies.repository.ts:66-80 | The document is returned iff it exists and the caller's account owns it, and then it is the stored one. |
| Store.CheckAccess | domains/supplies/repositories/supplies.repository.ts:104-116 | Pass iff the document exists and is owned; "not found" iff it is missing; "Forbidden" iff another account owns it. |
| Store.NewestExists | domains/supplies/repositories/supplies.repository.ts:216-220 | Every non-empty set of documents has a newest member by `createdAt`. |
| Store.IdsOfCons | domains/supplies/repositories/supplies.repository.ts:216-225 | The ids in `[x] + rest` are x's id together with those of `rest`. |
| Store.NewestInFront | domains/supplies/repositories/supplies.repository.ts:216-220 | Putting the newest document in front of a newest-first listing of the others keeps the listing newest-first. |
| Store.NewestFirstOf | domains/supplies/repositories/supplies.repository.ts:216-225 | The listing of a set of ids holds exactly those documents, as stored, strictly newest first. |
| Store.ListByAccount | domains/supplies/repositories/supplies.repository.ts:216-225 | The account filter ordered by `createdAt` descending: exactly the account's documents, as stored, strictly newest first. |
| Store.NewestFirstLength | domains/supplies/repositories/supplies.repository.ts:216-225 | A newest-first listing has no repeated document, so its length is the number of its ids. |
| Store.ListLengthIsCount | domains/supplies/repositories/supplies.repository.ts:159-165 | The listing has as many entries as the account's document count. |
| Store.SkipCount | domains/supplies/repositories/supplies.repository.ts:175-180 | The number of leading entries created at or after a time; the entry after them, if any, is older. |
| Store.StartAfter | domains/supplies/repositories/supplies.repository.ts:175-180 | `startAfter(cursorDoc)`: a suffix of the listing that keeps every entry older than the cursor and nothing else. |
| Store.StartAfterEntry | domains/supplies/repositories/supplies.repository.ts:175-180 | Starting after the listing's own p-th entry leaves exactly the entries past p. |
| Store.Remaining | domains/supplies/repositories/supplies.repository.ts:168-182 | What a page is cut from: the account's documents only, each as stored, strictly newest first. |
| Store.RemainingIds | domains/supplies/repositories/supplies.repository.ts:168-182 | Without a cursor, or with a cursor id that does not exist, every document of the account; otherwise exactly the account's documents created before the cursor document. |
| Store.StartAfterIds | domains/supplies/repositories/supplies.repository.ts:175-180 | Starting the account's listing after time t leaves exactly the account's documents created before t. |
| Store.StartAfterOnlyOlder | domains/supplies/repositories/supplies.repository.ts:175-180 | Everything left after the cursor is the account's and older than the cursor. |
| Store.StartAfterKeepsOlder | domains/supplies/repositories/supplies.repository.ts:175-180 | No document of the account older than the cursor is lost. |
| Store.Trim | domains/supplies/repositories/supplies.repository.ts:185-194 | The page is a prefix of at most `pageSize` entries. `hasMore` iff more than `pageSize` remain. Without more, the page is everything left. `nextCursor` is the last item's id exactly when there are more and the page is not empty. |
| Store.RemainingOlder | domains/supplies/repositories/supplies.repository.ts:168-182 | Everything after an existing cursor was created before the cursor document. |
| Store.GetPage | domains/supplies/repositories/supplies.repository.ts:144-202 | `total` is the count of the account's documents. The page holds at most `pageSize` stored documents of the account, newest first, all created before an existing cursor document. It is the start of what remains after the cursor, and `hasMore` iff more than `pageSize` remain. |
| Store.NextPageContinues | domains/supplies/repositories/supplies.repository.ts:185-194 | Following `nextCursor` continues exactly where the page stopped: nothing skipped, nothing shown twice. |
| Store.ContinueAfter | domains/supplies/repositories/supplies.repository.ts:175-194 | In a suffix of a newest-first listing, starting after its m-th entry leaves the rest of that suffix. |
| Store.DropDrop | domains/supplies/repositories/supplies.repository.ts:185-186 | Dropping q then m entries is dropping q + m. |
| Store.LeastId | domains/settings/repositories/settings.repository.ts:66-76 | The first document of an unordered query is the least id of the matching set. |
| Store.LeastExists | domains/settings/repositories/settings.repository.ts:66-76 | Every non-empty set of ids has a least member. |
| Store.InIdOrder | domains/products/repositories/product.repository.ts:236-245 | A listing in document-id order: exactly the named documents, as stored, with strictly increasing ids. |
| Supplies.MergeSupply | domains/supplies/repositories/supplies.repository.ts:118-121 | `{ ...stored, ...patch }` on a supply: defines the merged record. Its properties are stated by `EmptySupplyPatch`, `SupplyPatchIdempotent` and `SupplyPatchFields`. |
| Supplies.EmptySupplyPatch | domains/supplies/repositories/supplies.repository.ts:118-121 | An update that supplies no field leaves the supply's fields as they were. |
| Supplies.SupplyPatchIdempotent | domains/supplies/repositories/supplies.repository.ts:118-121 | Applying the same update twice gives the same fields as applying it once. |
| Supplies.SupplyPatchFields | domains/supplies/repositories/supplies.repository.ts:118-121 | Supplied fields take the new value; absent fields keep the stored one. |
| Supplies.SuppliesRepository.CreateSupply | domains/supplies/repositories/supplies.repository.ts:25-51 | Adds exactly one document under the new id, owned by the caller's account, with both timestamps set to the current time. The collection invariant is kept. |
| Supplies.SuppliesRepository.GetSupplyById | domains/supplies/repositories/supplies.repository.ts:57-86 | Null iff the supply is missing or owned by another account; otherwise the stored supply with its id. |
| Supplies.SuppliesRepository.UpdateSupply | domains/supplies/repositories/supplies.repository.ts:92-122 | "Not found" iff missing; "Forbidden" iff another account owns it; otherwise only that document changes, with the patch merged and `updatedAt` stamped. A failure changes nothing. |
| Supplies.SuppliesRepository.DeleteSupply | domains/supplies/repositories/supplies.repository.ts:232-256 | The same two errors; on success exactly that document is removed. |
| Supplies.SuppliesRepository.ListSupplies | domains/supplies/repositories/supplies.repository.ts:207-226 | Exactly the caller's supplies, as stored, one entry each, newest first. |
| Supplies.SuppliesRepository.GetSupplies | domains/supplies/repositories/supplies.repository.ts:144-202 | One page of the caller's supplies: at most `pageSize` of them, all owned, with `total` equal to the account's supply count. |
| Products.MergeProduct | domains/products/repositories/product.repository.ts:172-178 | `{ ...stored, ...patch }` on a product: defines the merged record. Its properties are stated by `EmptyProductPatch`, `ProductPatchIdempotent` and `ProductPatchFields`. |
| Products.EmptyProductPatch | domains/products/repositories/product.repository.ts:172-178 | An update that supplies no field leaves the product's fields as they were. |
| Products.ProductPatchIdempotent | domains/products/repositories/product.repository.ts:172-178 | Applying the same update twice gives the same fields as applying it once. |
| Products.ProductPatchFields | domains/products/repositories/product.repository.ts:172-178 | Supplied fields take the new value; absent fields keep the stored one. |
| Products.ProductsRepository.CreateProduct | domains/products/repositories/product.repository.ts:27-54 | Adds exactly one document under the new id, owned by the caller's account, with both timestamps set to the current time. |
| Products.ProductsRepository.GetProducts | domains/products/repositories/product.repository.ts:63-89 | Exactly the caller's products, one entry each, newest first; empty iff the account has none. |
| Products.ProductsRepository.GetProductById | domains/products/repositories/product.repository.ts:99-133 | Null iff missing or owned by another account; otherwise the stored product. |
| Products.ProductsRepository.UpdateProduct | domains/products/repositories/product.repository.ts:145-179 | "Not found", "Forbidden", or only that document changes, merged and stamped; a failure changes nothing. |
| Products.ProductsRepository.DeleteProduct | domains/products/repositories/product.repository.ts:188-216 | The same two errors; on success exactly that document is removed. |
| Products.FlaggedIds | domains/products/repositories/product.repository.ts:225-246 | The ids the query selects: the account's products whose `needsRecalculation` is `true`. `GetProductsNeedingRecalculation` states what is returned for them. |
| Products.ProductsRepository.GetProductsNeedingRecalculation | domains/products/repositories/product.repository.ts:225-246 | Exactly the caller's products whose flag is `true`, as stored, in document-id order. |
| Materials.MergeMaterial | domains/materials/repositories/material.repository.ts:104-110 | `{ ...stored, ...patch }` on a material: defines the merged record. Its properties are stated by `EmptyMaterialPatch`, `MaterialPatchIdempotent` and `MaterialPatchFields`. |
| Materials.EmptyMaterialPatch | domains/materials/repositories/material.repository.ts:104-110 | An update that supplies no field leaves the material's fields as they were. |
| Materials.MaterialPatchIdempotent | domains/materials/repositories/material.repository.ts:104-110 | Applying the same update twice gives the same fields as applying it once. |
| Materials.MaterialPatchFields | domains/materials/repositories/material.repository.ts:104-110 | Supplied fields take the new value; absent fields keep the stored one. |
| Materials.MaterialsRepository.CreateMaterial | domains/materials/repositories/material.repository.ts:13-39 | Adds exactly one document under the new id, owned by the caller's account, with both timestamps set to the current time. |
| Materials.MaterialsRepository.GetMaterialById | domains/materials/repositories/material.repository.ts:45-74 | Null iff missing or owned by another account; otherwise the stored material. |
| Materials.MaterialsRepository.UpdateMaterial | domains/materials/repositories/material.repository.ts:80-111 | "Not found", "Forbidden", or only that document changes, merged and stamped; a failure changes nothing. |
| Materials.MaterialsRepository.ListMaterials | domains/materials/repositories/material.repository.ts:116-135 | Exactly the caller's materials, one entry each, newest first. |
| Materials.MaterialsRepository.DeleteMaterial | domains/materials/repositories/material.repository.ts:141-166 | The same two errors; on success exactly that document is removed. |
| Settings.MergeSettings | domains/settings/repositories/settings.repository.ts:101-104 | `{ ...stored, ...patch }` on settings: defines the merged record. Its properties are stated by `SettingsPatchFields` and `SettingsPatchIdempotent`. |
| Settings.SettingsPatchFields | domains/settings/repositories/settings.repository.ts:101-104 | Supplied settings take the new value; absent ones keep the stored one. |
| Settings.SettingsPatchIdempotent | domains/settings/repositories/settings.repository.ts:101-104 | Applying the same update twice gives the same settings as applying it once. |
| Settings.SettingsRepository.CreateSettings | domains/settings/repositories/settings.repository.ts:23-43 | A new record for the account with tax 0, profit 30, fixed 0, other 0 and both timestamps now. The account's records grow by exactly that one. |
| Settings.SettingsRepository.GetSettingsByAccountId | domains/settings/repositories/settings.repository.ts:62-81 | Null iff the account has no settings record; otherwise that account's record with the least id, as stored. |
| Settings.SettingsRepository.GetSettingsById | domains/settings/repositories/settings.repository.ts:113-130 | Null iff the id is missing; otherwise the stored record. No ownership check. |
| Settings.SettingsRepository.UpdateSettings | domains/settings/repositories/settings.repository.ts:92-105 | A missing record fails (Firestore `update` on a missing document) and changes nothing; otherwise the patch is merged and `updatedAt` stamped. No ownership check. |
| SettingsService.ValidateSettingsPatch | domains/settings/services/settings.service.ts:50-65 | Passes iff every supplied rate is in [0, 100] and supplied fixed costs are non-negative. Each error is given iff every earlier check passes and its own check fails, in the order tax rate, profit margin, fixed costs, other percentages. |
| SettingsService.ProfitMarginCheckedBeforeFixedCosts | domains/settings/services/settings.service.ts:55-61 | A profit margin of 150 together with fixed costs of -1 gives the profit-margin error. |
| SettingsService.DefaultsInRange | domains/settings/repositories/settings.repository.ts:27-35 | The default record passes the ranges the service enforces. |
| SettingsService.ValidPatchKeepsRanges | domains/settings/services/settings.service.ts:50-67 | A validated update keeps an in-range record in range. |
| SettingsService.EmptyPatchPasses | domains/settings/services/settings.service.ts:50-65 | An update that supplies nothing always passes the checks. |
| SettingsService.AsPricing | domains/products/pricing/calculatePrice.ts:60-63 | The settings as the formula reads them, field for field. |
| SettingsService.ValidatedSettingsCanBeUnpriceable | domains/settings/services/settings.service.ts:50-65 | The checks bound each rate, not their sum: tax 50 and profit 50 pass, yet the selling price is then undefined. |
| SettingsService.DefaultsArePriceable | domains/settings/repositories/settings.repository.ts:27-35 | The default settings give a defined selling price. |
| SettingsService.GetOrCreateSettings | domains/settings/services/settings.service.ts:24-34 | Existing settings are returned with the store unchanged. Otherwise exactly one default record is created for the account. Either way, a lookup by account then returns the result. |
| SettingsService.GetOrCreateTwice | domains/settings/services/settings.service.ts:24-34 | A second call for the same account creates nothing and returns the same record. |
| SettingsService.UpdateAccountSettings | domains/settings/services/settings.service.ts:46-68 | A failed check gives that error and leaves the store unchanged. A valid update of a missing record fails with "not found". Otherwise the record is merged and stamped. |
| PlanConfig.PlanKey | domains/core/feature-flags/config.ts:3-6 | Each plan has its own key: FREE is "FREE" and PRO is "PRO". |
| PlanConfig.ConfigOf | domains/core/feature-flags/config.ts:14-40 | The `PLAN_CONFIG` entry of each plan. `FreeEntry` and `ProEntry` state its contents, and `LookupPlan` states that the table stores it under the plan's key. |
| PlanConfig.LookupPlan | domains/core/feature-flags/config.ts:14-40 | An entry exists iff the name is a plan key, and then it is that plan's entry. |
| PlanConfig.QuotaOf | domains/core/feature-flags/config.ts:14-40 | A limit exists iff the plan exists and lists the feature in its quotas, and then it is the configured number. |
| PlanConfig.FreeEntry | domains/core/feature-flags/config.ts:15-25 | FREE unlocks only MATERIALS and allows 10 products and 20 materials. |
| PlanConfig.ProEntry | domains/core/feature-flags/config.ts:26-39 | PRO unlocks the four paid features, not MATERIALS, and allows 500 products and 1000 materials. |
| PlanConfig.ProLimitsExceedFree | domains/core/feature-flags/config.ts:21-24 | Wherever FREE has a limit, PRO has a strictly larger one. |
| PlanConfig.PaidFeaturesUnmetered | domains/core/feature-flags/config.ts:29-38 | The four paid features have no quota in either plan. |
| FeatureFlagsServer.IsFeatureEnabled | domains/core/feature-flags/server.ts:13-16 | Enabled iff the plan is given, names a plan entry and that entry lists the feature. |
| FeatureFlagsServer.HasQuota | domains/core/feature-flags/server.ts:21-26 | False with no plan, no limit or a limit of 0; otherwise usage strictly below the limit. |
| FeatureFlagsServer.GetPlan | domains/core/feature-flags/server.ts:31-36 | The session's plan claim, or FREE when there is no session or no claim. |
| FeatureFlagsServer.IsFeatureAvailable | domains/core/feature-flags/server.ts:76-79 | Available iff the session's plan entry lists the feature. |
| FeatureFlagsServer.HasAvailableQuota | domains/core/feature-flags/server.ts:103-106 | Allowed iff the session's plan has a configured, non-zero limit for the feature and usage is strictly below it. |
| FeatureFlagsServer.RemainingQuotaAvailable | domains/core/feature-flags/server.ts:113-118 | The configured limit itself, 0 without one; usage is not subtracted. |
| FeatureFlagsServer.GetQuota | domains/core/feature-flags/server.ts:124-126 | The same value as `remainingQuotaAvailable`. |
| FeatureFlagsServer.QuotaAgreesWithLimit | domains/core/feature-flags/server.ts:103-118 | The quota check allows usage iff the reported limit is non-zero and usage is below it. |
| FeatureFlagsServer.MissingClaimIsFree | domains/core/feature-flags/server.ts:31-36 | A session without a plan claim is gated exactly as FREE: only MATERIALS, 10 products and 20 materials. |
| FeatureFlagsServer.FreeLimitsReported | domains/core/feature-flags/server.ts:113-126 | Without a session the reported limits are FREE's: 10 products, 20 materials, 0 for a paid feature. |
| FeatureFlagsServer.UnknownPlanGetsNothing | domains/core/feature-flags/server.ts:13-26 | A plan name that is neither key unlocks nothing, allows no usage and reports 0. |
| FeatureFlagsClient.IsFeatureEnabled | domains/core/feature-flags/context.tsx:24-26 | Enabled iff the plan names an entry that lists the feature. |
| FeatureFlagsClient.HasQuota | domains/core/feature-flags/context.tsx:31-34 | False with no limit or a limit of 0; otherwise usage strictly below the limit. |
| FeatureFlagsClient.Provide | domains/core/feature-flags/context.tsx:50-61 | The context value carries the plan, and its two tests are the plan's tests. |
| FeatureFlagsClient.ClientAgreesWithServer | domains/core/feature-flags/context.tsx:24-34 | For every plan string, the client's two tests answer as the server's. |
| FeatureFlagsClient.ProviderFollowsTable | domains/core/feature-flags/context.tsx:54-61 | The provider for a plan allows exactly the features and quotas of that plan's entry. |
| Accounts.MergeAccount | domains/accounts/repositories/account.repository.ts:92-98 | `{ ...stored, ...patch, updatedAt }` on an account: defines the merged record. Its properties are stated by `AccountPatchFields`. |
| Accounts.AccountPatchFields | domains/accounts/repositories/account.repository.ts:92-98 | An update keeps `createdAt` and stamps `updatedAt`. Each of the seven fields takes the supplied value when the patch has one and keeps the stored value otherwise. |
| Accounts.AccountsRepository.CreateAccount | domains/accounts/repositories/account.repository.ts:27-48 | A new account on the given plan (FREE by default), with no subscription status, no Stripe ids, not deleted, both timestamps now. Nothing else changes. |
| Accounts.AccountsRepository.GetAccountById | domains/accounts/repositories/account.repository.ts:56-73 | Null iff the account is missing; otherwise the stored account, deleted or not. |
| Accounts.AccountsRepository.UpdateAccount | domains/accounts/repositories/account.repository.ts:86-99 | Fails and changes nothing for a missing account; otherwise only that account changes, by the merge. |
| Accounts.AccountsRepository.DeleteAccount | domains/accounts/repositories/account.repository.ts:105-115 | Soft delete: the account stays readable, with `deletedAt` and `updatedAt` set to now and every other field kept. A missing account fails. |
| Accounts.SoftDeleteIsUpdate | domains/accounts/repositories/account.repository.ts:105-115 | A soft delete is the update that supplies only `deletedAt`. |
| Payments.UpperAscii | domains/core/payments/stripe.ts:156 | Upper-casing keeps the length and maps each character by itself. |
| Payments.ProSpellings | domains/core/payments/stripe.ts:156 | A product name upper-cases to "PRO" iff it is "pro" in some mix of cases. |
| Payments.SubscriptionChange | domains/core/payments/stripe.ts:145-172 | No update for statuses other than active, trialing, canceled and unpaid. Active or trialing writes the subscription id and the status. The plan is PRO iff there is a product whose name upper-cases to "PRO". The product id is written only when present. Canceled or unpaid clears the subscription, sets FREE and leaves the product id. |
| Payments.ApplyUserPatch | domains/core/payments/stripe.ts:159-171 | The update as evidently intended. It sets the plan, the status and the subscription id and stamps the time. It sets the product id only when one is supplied. Identity and customer id are kept. |
| Payments.UpdateUserAsWritten | domains/users/repositories/user.repository.ts:71-84 | The update as the Admin SDK performs it here. It is rejected, and nothing is written, iff the product id is `undefined`; otherwise it stores what `ApplyUserPatch` writes. |
| Payments.CancellationIgnoredAsWritten | domains/core/payments/stripe.ts:165-171 | As written, a canceled or unpaid subscription never reaches the user record. |
| Payments.ProductlessActivationIgnoredAsWritten | domains/core/payments/stripe.ts:159-164 | As written, an active or trialing subscription without a product never reaches the user record. |
| Payments.ProductActivationStoredAsWritten | domains/core/payments/stripe.ts:145-164 | With a product, the update as written and as intended store the same record. |
| Payments.UsersCollection.HandleSubscriptionChange | domains/core/payments/stripe.ts:122-173 | With no user for the customer, or an ignored status, nothing changes. Otherwise exactly the user with the least id among the customer's users receives the decided update. |
| Payments.CancellationDowngrades | domains/core/payments/stripe.ts:165-171 | Under the intended update, a cancellation puts the user on FREE with no subscription and the status recorded, whatever the plan was. |
| Payments.ActiveProUpgrades | domains/core/payments/stripe.ts:145-157 | An active subscription to a product named "pRo" puts the user on PRO. |
| Middleware.SkipSpaces | middleware.ts:18 | `\s*` greedy: every skipped character is white space, and the stop is not. |
| Middleware.ValueEnd | middleware.ts:18 | `[^;]+` greedy: no `;` before the stop, and the stop is `;` or the end. |
| Middleware.ValueAfter | middleware.ts:18 | The capture is non-empty, has no `;`, and ends at a `;` or at the end of the header. |
| Middleware.KeyAt | middleware.ts:18 | `session=` followed by at least one character that is not `;`, the part of the pattern after the anchor. |
| Middleware.Anchored | middleware.ts:18 | Where the key may start for a start position: at 0 for `^`, or after `;` and all the white space that follows it. |
| Middleware.MatchAt | middleware.ts:18 | A match at a start position has its key at 0 (the `^` branch) or right after that `;` and its white space. |
| Middleware.MatchAtFindsAnchoredKey | middleware.ts:18 | Conversely, an anchored key at a start position is a match there, and it is the key reported. |
| Middleware.NoMatchExtends | middleware.ts:18 | A failed start position followed by a stretch without matches gives a longer stretch without matches. |
| Middleware.FirstMatch | middleware.ts:18 | The search returns the leftmost matching start position, or none when no position matches. |
| Middleware.FirstMatchIsLeftmost | middleware.ts:18 | The search returns a position iff it is the leftmost match. |
| Middleware.SessionFromHeader | middleware.ts:17-22 | Nothing iff no start position matches; a value is non-empty and has no `;`. |
| Middleware.AnchoredKeyGivesSession | middleware.ts:17-22 | A session key anywhere at an anchored place in the header makes the search yield a session. |
| Middleware.SessionCookie | middleware.ts:13-23 | A non-empty value from the cookie API wins. Otherwise the header's value is used if it has one. |
| Middleware.Guard | middleware.ts:11-35 | Continue iff there is a non-empty session value; otherwise redirect to `/login`. |
| Middleware.Guarded | middleware.ts:40-44 | The paths the matcher `/dashboard/:path*` selects: `/dashboard`, `/dashboard/` and every path starting with `/dashboard/`. |
| Middleware.Route | middleware.ts:40-44 | Only `/dashboard`, `/dashboard/` and paths below it go through the guard; every other request continues. |
| Middleware.GuardDecision | middleware.ts:13-34 | The guard lets a request on iff the cookie API gives a non-empty value or the header search finds one. |
| Middleware.ApiCookieWins | middleware.ts:13-16 | With a non-empty API value, that value is used and the request continues. |
| Middleware.HeaderMatchIsAnchored | middleware.ts:18 | A header value follows a `session=` key at the start or after `;` and white space, with no earlier match. |
| Middleware.NoKeyNoSession | middleware.ts:18 | A header with no `session=` key (followed by a non-`;`) yields nothing. |
| Middleware.PrefixedKeyIgnored | middleware.ts:18 | `xsession=…` is not a session cookie. |
| Middleware.EmptyValueSkipped | middleware.ts:18 | `session=; session=abc` yields `abc`: the empty value does not match, and the search moves on. |
| Middleware.FirstOccurrenceWins | middleware.ts:18 | `session=a; session=b` yields `a`. |
| Middleware.MissingSessionRedirects | middleware.ts:26-31 | No cookies, or an empty API value with only `session=;`, redirects to `/login`. |
| ProductEditor.InitialProduct | domains/products/context/ProductContext.tsx:27-33 | The editor starts from the given product (missing description read as empty) or from a blank one. |
| ProductEditor.FindSupply | domains/products/components/ProductForm.tsx:139 | `find`: the first catalogue entry with the id, or none when no entry has it. |
| ProductEditor.UnitCost | domains/products/components/ProductForm.tsx:139-140 | `supply?.cost || 0`: the cost of the catalogue entry `find` returns, or 0. `UnitCostIsFirstEntry` states this for every input. |
| ProductEditor.UnitCostIsFirstEntry | domains/products/components/ProductForm.tsx:139-140 | A line's unit cost is the first matching supply's cost, and 0 for a supply not in the catalogue. |
| ProductEditor.ToPricingSupplies | domains/products/components/ProductForm.tsx:47-53 | One pricing line per product line, with the catalogue's unit cost and the line's quantity. |
| ProductEditor.TotalCost | domains/products/components/ProductForm.tsx:137-142 | `calculateTotalCost`, a left fold of unit cost times quantity. `TotalCostIsSuppliesCost`, `TotalCostAppend` and `UnknownSupplyCostsNothing` state its properties. |
| ProductEditor.TotalCostIsSuppliesCost | domains/products/components/ProductForm.tsx:137-142 | The editor's total cost equals the supplies cost the pricing formula computes for the same lines. |
| ProductEditor.TotalCostAppend | domains/products/components/ProductForm.tsx:137-142 | Adding a line adds its unit cost times its quantity to the total. |
| ProductEditor.UnknownSupplyCostsNothing | domains/products/components/ProductForm.tsx:139-140 | A line whose supply is not in the catalogue adds nothing to the total. |
| ProductEditor.DropIndex | domains/products/components/ProductForm.tsx:120 | The filter drops exactly the line at the index and keeps the others in order; an index outside the list changes nothing. |
| ProductEditor.RemoveUndoesAdd | domains/products/components/ProductForm.tsx:99-122 | Removing the line just added gives back the previous lines. |
| ProductEditor.EditLine | domains/products/components/ProductForm.tsx:126-129 | The edited field takes the new value; the other field is kept. |
| ProductEditor.ProductForm.AddSupply | domains/products/components/ProductForm.tsx:99-115 | With an empty catalogue: the error message and no change. Otherwise one line for the first supply, quantity 1, at the end, and nothing else changes. |
| ProductEditor.ProductForm.RemoveSupply | domains/products/components/ProductForm.tsx:117-122 | The line at the index goes and the rest keep their order; an index outside the list changes nothing. |
| ProductEditor.ProductForm.UpdateSupply | domains/products/components/ProductForm.tsx:124-134 | One field of one line changes; every other line and field is kept. |
| ProductEditor.Recalculated | domains/products/components/ProductForm.tsx:47-55 | The price calculation over the editor's lines. Its supplies cost is the total the editor shows, and its total cost adds the fixed costs. |
| ProductEditor.ProductForm.AutoCalculate | domains/products/components/ProductForm.tsx:45-70 | With lines, `price` becomes the recommended selling price, and `currentPrice` takes it only if it had no value. Nothing else changes; without lines nothing changes. |
| ProductEditor.ProductForm.HandleSubmit | domains/products/components/ProductForm.tsx:72-93 | With no lines: the error message and nothing submitted. Otherwise the product is submitted unchanged, and the error is the save failure's message, if any. |
| PriceBreakdown.Calculation | domains/products/components/PriceBreakdown.tsx:21-35 | Nothing iff the product has no lines. Otherwise the editor's recalculation, whose supplies cost is the editor's total cost. |
| PriceBreakdown.HasPriceIssue | domains/products/components/PriceBreakdown.tsx:42-45 | An issue iff a current price is set and the displayed difference is negative. With a current price and no issue, the difference is not negative. |
| PriceBreakdown.PriceDifference | domains/products/components/PriceBreakdown.tsx:43-45 | Recommended price plus the difference is the current price; 0 without a current price. |
| PriceBreakdown.IssueIsNegativeDifference | domains/products/components/PriceBreakdown.tsx:42-45 | The issue flag is on iff the difference is negative, whether or not a current price is set. |
| PriceBreakdown.EditorPriceIsRecommended | domains/products/components/PriceBreakdown.tsx:21-45 | After the editor's recalculation, the panel recommends the editor's price, and a product priced for the first time shows no issue. |

## Left out

- Firestore itself is not modelled: network calls, serialisation of timestamps to ISO strings, the `count()` aggregation's implementation, and failures of the store. A collection is a map, and the server timestamp is a counter that every write advances.
- Authentication and sessions are not modelled. `getUserWithAccount` and `getSession` read cookies and the database. The caller's account is a parameter of each repository operation instead. The unauthenticated branches (an "Unauthorized" error, null, or an empty list) are not modelled.
- New document ids come from Firestore's random generator. They are a parameter here, and the caller guarantees they are fresh.
- `stripe.products.retrieve` is a call to Stripe. The product's name is an input of `Payments.UsersCollection.HandleSubscriptionChange`, and the product id is the one taken from the subscription's first item. `createCheckoutSession`, `createCustomerPortalSession`, `getStripePrices` and `getStripeProducts` are thin wrappers around Stripe and are not modelled. The users collection is reduced to the fields the webhook writes.
- Payments.UpperAscii: upper-casing is modelled for ASCII letters only. Other characters are kept as they are.
- Payments.UsersCollection.HandleSubscriptionChange, Payments.ApplyUserPatch, Payments.CancellationDowngrades: these model the update as evidently intended, where a `stripeProductId` of `undefined` leaves the field as it is. In this codebase the Admin SDK is set up without `ignoreUndefinedProperties` (domains/core/firebase/firebase.client.ts:38-40, domains/core/database/firestore.client.ts:6). It therefore rejects every update with an `undefined` field, so the program as written never stores a cancellation and never stores an activation without a product. `Payments.UpdateUserAsWritten` models that behaviour; see "## Findings".
- domains/core/payments/stripe.ts:5 imports `getAdminDb` from domains/core/database/firestore.client.ts, which exports only `Database`. The model reads `getAdminDb()` as that database.
- Numbers are exact reals or unbounded integers. Floating-point rounding, `NaN`, `Infinity` and string-to-number coercion of form input are not modelled.
- Pricing.CalculatePrice: requires the percentages not to add up to exactly 100. There the source divides by zero and yields `Infinity` or `NaN`. `ProductEditor.ProductForm.AutoCalculate` and `PriceBreakdown.Calculation` inherit this requirement when the product has lines.
- ProductEditor.ProductForm.UpdateSupply: requires the index to be within the lines. The source, given an index past the end, would write a line there and leave holes in between.
- PlanConfig.LookupPlan: a plan name that is a property of every JavaScript object, such as `toString`, is treated as unknown. In the source `PLAN_CONFIG[plan]` finds that property instead. `PLAN_CONFIG[plan]?.features` and `PLAN_CONFIG[plan]?.quotas` are then `undefined`, so the flag functions of domains/core/feature-flags/server.ts (lines 15, 24 and 117) throw a `TypeError` where the model answers false or 0.
- The catalogue and the settings are fixed for the product editor's lifetime, and each editor method is one state change. React's rendering, effects scheduling, memoisation and the loading flag are not modelled. Navigation after a successful submit (`router.push`, `router.refresh`) and `handleCancel` are not modelled either.
- The middleware's console logging and the construction of the redirect URL from the request URL are not modelled. The redirect's path is.
- Middleware.Guarded: the matcher `/dashboard/:path*` is read as `/dashboard`, `/dashboard/` and every path starting with `/dashboard/`. The finer rules of Next.js's path-pattern compiler are not modelled: case-insensitive matching, and the rejection of empty segments such as `/dashboard//x`.
- The request-level cache around `_getPlan` only avoids repeated session reads and does not change any result.
- A `Product` passed to the editor is read as the editor's own product shape (name, description, price, current price, lines).
- `getSupplies`: `pageSize` is a natural number. A negative page size, which the source passes on to `limit`, is not modelled.

## Findings

| source | as written | input that shows it | evidently intended | confidence | as-written member | corrected member |
|---|---|---|---|---|---|---|
| domains/core/payments/stripe.ts:159-171 | The webhook passes `stripeProductId: undefined` to `updateUser`. The Admin SDK, set up without `ignoreUndefinedProperties`, rejects that update. | A subscription event with status `canceled` for a PRO user. The update is rejected and the user stays on PRO. An `active` subscription whose first item has no product is rejected the same way. | The cancellation puts the user on FREE with no subscription id, and the product id is left as it is. | high, not executed | Payments.UpdateUserAsWritten, Payments.CancellationIgnoredAsWritten, Payments.ProductlessActivationIgnoredAsWritten | Payments.ApplyUserPatch, Payments.CancellationDowngrades |
