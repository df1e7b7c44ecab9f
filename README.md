# petstory order lifecycle, modelled in Dafny

petstory sells a personalised colouring book of a customer's pet. The browser page
(`script.js`) filters the chosen photos and posts them with the pet's name and the
customer's email to `POST /pet` (`api/main.py`). That route stores a pending order
(`api/store.py`), saves the uploads, and opens an Asaas checkout (`api/asaas.py`).
When Asaas calls `POST /webhook/asaas` with a `CHECKOUT_PAID` event, the order is
marked paid. The fulfilment routine (`api/process.py`) then takes every paid, pending
order, in ascending order of its `created_at` text. It emails the customer, turns each uploaded image into line art
through Gemini (`api/gemini.py`), and marks the order processed. A failure leaves
the order pending, so the next run retries it.

The project has one Dafny module per source file:

- `Store` (store.dfy) holds the order record and the store. The store is a class
  whose `orders` map and key order `ids` the `update_order_*` methods change in
  place. Pure functions give the dictionary scan and the stable sort behind the
  production listing.
- `Asaas` (asaas.dfy) covers the sandbox/production choice, the checkout page URL,
  `criar_checkout` with the HTTP reply as an input, the webhook token check, and
  `processar_webhook` on the store.
- `Gemini` (gemini.dfy) covers `gerar_imagem`: the key/model guard, the model
  prefix, the retry loop and the choice of the image part. The SDK is an input.
- `Process` (process.dfy) covers `processar_pedido` and `run` on the store and the
  uploads folder. The specification functions are `Produce`, `ProcessOne` and
  `RunAll`.
- `Routes` (routes.dfy) covers the three routes of `api/main.py`.
- `Frontend` (frontend.dfy) covers `filterValidFiles`, `formatSize` and the guard of
  `goToCheckout`.
- `Files` (files.dfy) covers the uploads folder and `Path.suffix`/`Path.stem`.
- `Text` (text.dfy) covers the string operations.
- `Seqs` (seqs.dfy) defines subsequences, used for the browser's filter and the order
  of the generator's calls.
- `JsonValue` (json.dfy) covers the webhook body.
- `Wrappers` (wrappers.dfy) holds `Option` and `Result`.

Inputs from the outside world are parameters:

- the uuid and the clock of `create_order`;
- the environment variables (None when unset);
- the Asaas HTTP reply;
- the mailer (`Order -> Option<string>`, the exception's text when it raises);
- the Gemini SDK (`(image, model, n) -> outcome` for the n-th call).

`Process.Services.generate` is the image generator as one function.
`Process.GeminiBacked` ties it to `Gemini.Generate` over the SDK.

Behaviour of the code that the model follows and states:

- The email is sent before any image is generated. Fulfilment does not look at
  `pagamento`: the payment gate is the listing `run` takes once, up front
  (`Process.NoPaymentCheckInProcessarPedido`, `Process.RunProcessesOnlyPaid`).
- Only `update_order_pagamento` and `update_order_status` set `updated_at`. The file
  names, checkout id, images and pdf setters do not.
- `create_pet` stores the order before it saves any file or checks the return URL. A
  later 400 or 502 leaves an unpaid order without a checkout id, which no webhook can
  mark (`Routes.FailedRequestLeavesOrphanOrder`).
- In `create_pet`, the `not base.startswith("http://localhost")` test never decides
  anything (`Routes.HttpLocalhostExceptionUnreachable`). Every `http://` base is
  refused, and so is the default `http://localhost:5500`
  (`Routes.ReturnBaseAccepted`, `Routes.DefaultBaseRejected`).
- A listed file named like a generated output (`gerado_x.png`) that comes after
  `x.jpg` is produced by the loop and then sent to Gemini itself
  (`Process.AttemptedWereThere`).
- The listing is sorted by the `created_at` string, which is not always creation order:
  `isoformat()` leaves out the fraction on a whole second, so `…T10:00:00Z` is listed
  after `…T10:00:00.500000Z` (`Store.WholeSecondSortsAfterFraction`).
- The browser's count cap wins over its size filter. Among six images, an oversized
  one in the first five reaches the server, which refuses it
  (`Frontend.OversizedImageCanPassFilter`). `formatSize(1048575)` shows "1024.0 KB"
  (`Frontend.JustUnderOneMegabyte`).

## Model

| member | source | states |
|---|---|---|
| Store.WithCheckoutId | api/store.py:79 | the record gains the checkout id and nothing else changes |
| Store.WithPagamento | api/store.py:89-90 | `pagamento` becomes the value and `updated_at` the call's time; nothing else changes |
| Store.WithStatus | api/store.py:100-101 | `status` becomes the value and `updated_at` the call's time; nothing else changes |
| Store.WithFileNames | api/store.py:111 | only the file list changes, and `updated_at` is not touched |
| Store.WithImagesGenerated | api/store.py:121 | only `images_generated` changes |
| Store.WithPdfGenerated | api/store.py:131 | only `pdf_generated` changes |
| Store.SettersIdempotent | api/store.py:74-133 | each setter applied twice with one value equals one application, up to the later `updated_at` |
| Store.KeyOrderPut | api/store.py:33 | a dict assignment keeps the key order: a new key goes last and an existing key stays put |
| Store.NewOrder | api/store.py:33-42 | the record `create_order` stores: pending payment and status, no checkout id, created at the given time (`Store.OrderStore.CreateOrder` states it) |
| Store.FindByCheckoutId | api/store.py:65-71 | the scan over the dictionary in key order (`Store.FindByCheckoutIdFirst` states it) |
| Store.ReadyEntries | api/store.py:50-54 | the list comprehension of paid, pending entries with `order_id` set to the key (`Store.ReadyEntriesMembers` states it) |
| Store.SortByCreatedAt | api/store.py:55 | the stable sort by `created_at` (`Store.SortSortedPermutation` and `Store.SortStable` state it) |
| Store.FindByCheckoutIdFirst | api/store.py:65-71 | the scan returns the first order in key order holding the checkout id, with `order_id` set to its key; it returns None exactly when no order holds the id |
| Store.ReadyEntriesMembers | api/store.py:50-54 | the comprehension holds exactly the entries of keys whose order is paid and pending |
| Store.ReadyEntriesAreReady | api/store.py:50-54 | every selected entry has `pagamento == "ok"` and `status == "pendente"` |
| Store.SortSortedPermutation | api/store.py:55 | the sort by `created_at` yields a permutation of its input, ordered by code-point string order |
| Store.SortStable | api/store.py:55 | the sort is stable: orders with equal `created_at` keep their key order |
| Store.ListPendingProduction | api/store.py:47-56 | the listing is exactly the paid, pending entries, ascending by the `created_at` string, with ties in key order |
| Store.WholeSecondSortsAfterFraction | api/store.py:41-55 | an order stamped on a whole second sorts after one stamped half a second later, because `isoformat()` drops the zero fraction |
| Store.ListedAreStored | api/store.py:50-52 | when each order id equals its key, each listed pedido is the stored record itself |
| Store.OrderStore.constructor | api/store.py:15-16 | a new store is empty (`orders.json` holds `{}`) |
| Store.OrderStore.CreateOrder | api/store.py:29-44 | stores a pending record without a checkout id under the new id, appends the id to the key order when it is new, and leaves every other order alone |
| Store.OrderStore.GetOrder | api/store.py:59-62 | the stored record, or None exactly when the id is absent |
| Store.OrderStore.GetOrderByAsaasCheckoutId | api/store.py:65-71 | the loop returns the first holder of the checkout id in key order, or None when there is none |
| Store.OrderStore.ListPending | api/store.py:47-56 | the listing of the current contents |
| Store.OrderStore.UpdateOrderAsaasCheckoutId | api/store.py:74-81 | returns False and changes nothing for an unknown id; otherwise sets that order's checkout id |
| Store.OrderStore.UpdateOrderPagamento | api/store.py:84-92 | returns False and changes nothing for an unknown id; otherwise sets `pagamento` and `updated_at` of that order |
| Store.OrderStore.UpdateOrderStatus | api/store.py:95-103 | returns False and changes nothing for an unknown id; otherwise sets `status` and `updated_at` of that order |
| Store.OrderStore.UpdateOrderFileNames | api/store.py:106-113 | returns False and changes nothing for an unknown id; otherwise replaces that order's file list |
| Store.OrderStore.UpdateOrderImagesGenerated | api/store.py:116-123 | returns False and changes nothing for an unknown id; otherwise sets `images_generated` |
| Store.OrderStore.UpdateOrderPdfGenerated | api/store.py:126-133 | returns False and changes nothing for an unknown id; otherwise sets `pdf_generated` |
| Asaas.IsProduction | api/asaas.py:12 | `ASAAS_PRODUCTION` lower-cased is "true" or "1", default "false" (`Asaas.IsProductionSpellings` states it) |
| Asaas.BaseUrl | api/asaas.py:10-13 | the production or sandbox API host |
| Asaas.CheckoutPageUrl | api/asaas.py:16-20 | the customer's checkout page for an id (`Asaas.CheckoutPageUrlRoundTrip` states it) |
| Asaas.IsProductionSpellings | api/asaas.py:12 | production is chosen exactly by "1" or by "true" in any letter case; an unset variable means sandbox |
| Asaas.CheckoutPageUrlRoundTrip | api/asaas.py:16-20 | the page URL is on the production host exactly in production, and the checkout id can be read back from it |
| Asaas.BuildPayload | api/asaas.py:39-61 | the body references the order, carries both return URLs and the email, and cuts the customer name to its first 255 characters |
| Asaas.CriarCheckout | api/asaas.py:23-93 | a blank key fails before any request; otherwise the request goes to `<base>/v3/checkouts` with the stripped key; the call succeeds exactly when Asaas replies with a non-empty id, and the returned page URL is that id's checkout page on the host `ASAAS_PRODUCTION` selects, from which the id reads back |
| Asaas.WebhookTokenValido | api/asaas.py:101-109 | the token check (`Asaas.TokenUnconfiguredAcceptsAll`, `Asaas.TokenConfiguredMustMatch` and `Asaas.TokenPaddingAccepted` state it) |
| Asaas.TokenUnconfiguredAcceptsAll | api/asaas.py:107-108 | with no token configured (unset or blank), every request passes |
| Asaas.TokenConfiguredMustMatch | api/asaas.py:107-109 | with a token configured, a request passes exactly when its stripped token equals the stripped configured one; a missing header never passes |
| Asaas.TokenPaddingAccepted | api/asaas.py:109 | the configured token with surrounding whitespace passes |
| Asaas.WebhookTarget | api/asaas.py:112-137 | the guard chain of `processar_webhook`: the order it marks, none, or the exception (the `Webhook…` lemmas below state it) |
| Asaas.WebhookIgnoredEvents | api/asaas.py:117-127 | an event other than CHECKOUT_PAID, a falsy `checkout` or a falsy `checkout.id` marks nothing and leaves the store as it was |
| Asaas.WebhookTargetIsStored | api/asaas.py:129-137 | the order a webhook marks is a stored key holding a checkout id |
| Asaas.WebhookUnknownCheckoutIgnored | api/asaas.py:129-131 | an event whose checkout id no order holds marks nothing |
| Asaas.WebhookMarksFirstHolder | api/asaas.py:117-137 | a CHECKOUT_PAID event marks the first order, in key order, holding its checkout id |
| Asaas.FindIgnoresOtherFields | api/store.py:65-71 | changing fields other than the checkout id leaves the scan finding the same key |
| Asaas.WebhookDuplicateIdempotent | api/asaas.py:112-137 | a repeated event targets the same order, which stays paid; the store ends as after one event, with the later `updated_at` |
| Asaas.ProcessarWebhook | api/asaas.py:112-137 | as written: an exception for a non-object body or checkout; otherwise True exactly when an order was marked paid, with only that order changed |
| Asaas.ProcessarWebhookFixed | api/asaas.py:112-137 | the same guard chain and update, handing back the id of the order it marked paid |
| Gemini.ModelPath | api/gemini.py:37-38 | the model name always starts with "models/", and is prefixed only when it does not already |
| Gemini.ModelPathIdempotent | api/gemini.py:37-38 | prefixing twice is prefixing once |
| Gemini.QuotaErrorSpellings | api/gemini.py:54 | an error counts as a rate limit exactly when its message holds "quota" or "resource_exhausted" in some mix of upper and lower case |
| Gemini.QuotaVariantsCaught | api/gemini.py:54 | a message holding `RESOURCE_EXHAUSTED`, `Quota` or `QUOTA` anywhere is a rate limit |
| Gemini.Attempts | api/gemini.py:45-58 | the retry loop makes at least one and at most `max_retries` calls |
| Gemini.FirstImage | api/gemini.py:60-72 | the first part without text and with inline data, or None exactly when there is no such part |
| Gemini.CallPhase | api/gemini.py:45-74 | once configured, `gerar_imagem` makes one or two SDK calls |
| Gemini.MissingConfigMakesNoCall | api/gemini.py:33-36 | a blank key or model raises before any SDK call |
| Gemini.ConfiguredCallsSdk | api/gemini.py:33-38 | with both set, the SDK is called with the prefixed model name, once or twice |
| Gemini.PermanentErrorNotRetried | api/gemini.py:53-58 | an error that is not about quota is raised after one call |
| Gemini.QuotaErrorRetriedOnce | api/gemini.py:54-58 | a quota error on the first call leads to exactly one retry, and whatever the retry raises is raised |
| Gemini.ResultIsFirstImage | api/gemini.py:45-72 | returned bytes are the first image part of a response that some call gave back |
| Gemini.Generate | api/gemini.py:28-74 | `gerar_imagem` over the SDK: the guard, the retry and the part choice (`Gemini.CallPhase`, `Gemini.ResultIsFirstImage` and the lemmas beside them state it) |
| Gemini.GerarImagem | api/gemini.py:28-74 | the method returns what `Generate` specifies, bytes or exception plus call count, with at most two calls |
| Gemini.CallWithRetry | api/gemini.py:45-58 | the loop with `break`, `continue` and `raise` computes `Attempts` |
| Gemini.FindImagePart | api/gemini.py:60-74 | the loop over the parts computes `FirstImage` |
| Process.OutputNameIsImage | api/process.py:29-33 | `gerado_<stem>.png` has suffix `.png`, counts as an image name, and has stem `gerado_<stem>` |
| Process.Produce | api/process.py:26-34 | the file loop, up to the first exception (`Process.ProduceAttempts`, `Process.ProduceFailureCause`, `Process.ProduceSuccessOutputs` and the lemmas below state it) |
| Process.ProcessOne | api/process.py:15-39 | `processar_pedido` on the store, the folder and the failure log (`Process.ProcessedIffNoFailure` and the lemmas beside it state it) |
| Process.RunAll | api/process.py:42-47 | `run` over the listing taken up front (`Process.RunChangesOnlyListed` and `Process.RunProcessesOnlyPaid` state it) |
| Process.ProduceInOrder | api/process.py:27-32 | the names sent to the generator are a subsequence of the listed names |
| Process.ProduceAttempts | api/process.py:27-32 | the generator only sees listed image names whose file is in the folder, in loop order and no more often than listed |
| Process.ProduceFilesGrow | api/process.py:27-34 | the loop never removes a file |
| Process.ProduceComplete | api/process.py:27-34 | when nothing raised, every listed image in the folder has its `gerado_` counterpart |
| Process.AttemptedWereThere | api/process.py:27-33 | a name reaches the generator only if it is a listed image whose file was in the folder, or is the output of a listed name |
| Process.GeneratedFilesAreOutputs | api/process.py:31-34 | each file the loop adds or rewrites is the `gerado_` output of a listed name and holds bytes the generator returned |
| Process.ProduceKeepsGenerated | api/process.py:31-34 | a file holding generator output still holds generator output after the loop |
| Process.ProduceFailureCause | api/process.py:27-39 | when the loop stops on an exception, the last name tried is in the folder, the generator fails on its bytes, and the exception's message is that failure's |
| Process.ProduceSuccessOutputs | api/process.py:27-35 | when nothing raised, every name tried has its `gerado_` file in the folder, holding bytes the generator returned |
| Process.EmptyOrderIdIsNoop | api/process.py:20-22 | a pedido without an order id changes nothing |
| Process.MailFailureStopsProduction | api/process.py:23-24 | a failed email means no generation, no file, no status change and one log line |
| Process.ProcessedIffNoFailure | api/process.py:23-39 | with no exception the order becomes "processado" and the failure log is unchanged; with one the orders are unchanged and one failure line is logged; the folder keeps what was written |
| Process.FailedOrderStaysListed | api/process.py:35-39 | a paid order whose fulfilment fails is still listed for the next run |
| Process.NoPaymentCheckInProcessarPedido | api/process.py:15-35 | an unpaid order handed to `processar_pedido` is marked processed all the same |
| Process.RunChangesOnlyListed | api/process.py:42-47 | over a run, each order is unchanged or marked processed, and only a listed order can be marked |
| Process.RunProcessesOnlyPaid | api/process.py:42-47 | a run marks only orders that were paid and pending when it listed the store |
| Process.LogAppends | api/process.py:36-39 | fulfilment only appends to the failure log |
| Process.GenerateImages | api/process.py:27-34 | the loop over the uploads folder computes `Produce` |
| Process.ProcessarPedido | api/process.py:15-39 | the method computes `ProcessOne` on the store, the folder and the log, and keeps the key order |
| Process.Run | api/process.py:42-47 | processing the listing taken up front, in order, computes `RunAll` |
| Files.Suffix | api/process.py:29 | `Path.suffix` is empty or a dot followed by at least one character and no further dot |
| Files.Stem | api/process.py:33 | `Path.stem`, the name without its suffix (`Files.StemSuffixSplit` and `Files.SuffixOfDotted` state it) |
| Files.StemSuffixSplit | api/process.py:33 | the stem followed by the suffix is the name |
| Files.SuffixOfDotted | api/process.py:33 | for `head.ext` with a non-empty head, the suffix is `.ext` and the stem is `head` |
| Files.UploadsDir.Exists | api/process.py:29 | a file exists exactly when the folder holds it |
| Files.UploadsDir.WriteBytes | api/main.py:62-63 | writing creates or overwrites exactly one file |
| Routes.SaveUploads | api/main.py:54-64 | the upload loop over the folder (`Routes.SaveUploadsFacts` states it) |
| Routes.NamedFiles | api/main.py:54-55 | the names of the uploads that carry one, no more of them than uploads |
| Routes.SaveUploadsFacts | api/main.py:54-64 | the loop stops at the first named upload over 10 MB, and only there; otherwise it saves every named upload in order; no file is removed |
| Routes.ReturnBase | api/main.py:69-88 | the return base, or the 400 that refuses it (`Routes.ReturnBaseAccepted` states it) |
| Routes.HttpLocalhostExceptionUnreachable | api/main.py:74-84 | a base starting with `http://localhost` has already failed the loopback check |
| Routes.ReturnBaseAccepted | api/main.py:69-88 | a return base is accepted exactly when the configured value is `https://` and names neither localhost nor 127.0.0.1; it is then used as it is |
| Routes.DefaultBaseRejected | api/main.py:69-83 | an unset or blank FRONTEND_BASE_URL is refused as loopback |
| Routes.CheckoutStepFacts | api/main.py:89-105 | a failed checkout answers 502 and changes nothing; a successful one stores the id Asaas sent and answers with that checkout's page on the host `ASAAS_PRODUCTION` selects; a request sent is the one `criar_checkout` builds from the two return URLs |
| Routes.CreatePetFlow | api/main.py:41-105 | `create_pet` on the store and the folder, with the request sent to Asaas (the lemmas below state it) |
| Routes.AfterSaveFacts | api/main.py:65-105 | after the order is stored, only that order changes: its file names once saved, and its checkout id exactly on success |
| Routes.TooManyFilesStoresNothing | api/main.py:48-49 | more than five files are refused before anything is stored or written |
| Routes.FailedRequestLeavesOrphanOrder | api/main.py:51-102 | a 400 or 502 after the count check leaves an unpaid order without a checkout id, which no webhook can mark |
| Routes.SuccessLinksCheckout | api/main.py:41-105 | a successful request stores the checkout id on the new order, returns its page, and records and saves every named upload |
| Routes.CheckoutRequestFacts | api/main.py:48-102 | no 400 sends a request to Asaas, and a success always sent one; the request's return URLs are the accepted `https://` base with `/?checkout=success` and `/?checkout=cancel`, and its `externalReference` is the new order's id |
| Routes.CreatePetTouchesOnlyItsOrder | api/main.py:41-105 | `create_pet` leaves every other order alone, keeps the key order, and removes no file |
| Routes.SaveUploadFiles | api/main.py:54-64 | the upload loop over the folder computes `SaveUploads` |
| Routes.CreatePet | api/main.py:41-105 | the route on the store and the folder computes `CreatePetFlow`, response and request to Asaas included |
| Routes.GetOrderByKey | api/store.py:59-62 | a dictionary lookup finds an order only with a str key that is stored; a bool key finds nothing |
| Routes.PaidEventQueuesNothing | api/main.py:119-124 | a CHECKOUT_PAID event for a stored checkout marks the order paid, and no task is queued for it |
| Routes.FixedSchedulesMarkedOrder | api/main.py:119-124 | once the id is handed back, the route queues exactly the order the event marked paid, which is then ready for production unless it was already produced |
| Routes.WebhookGateToken | api/main.py:111-114 | a configured token turns away exactly the requests that lack it; an unset one lets every request in |
| Routes.WebhookGate | api/main.py:111-118 | the 401 and the `{}` answer before the event is handled (`Routes.WebhookGateToken` states it) |
| Routes.WebhookAsaas | api/main.py:108-125 | as written: 401 on a bad token, `{}` on an unreadable body, otherwise the webhook's effect and `received`; it never schedules anything |
| Routes.WebhookAsaasFixed | api/main.py:108-125 | the same route with the id handed back, scheduling the marked order |
| Routes.HandleEvent | api/main.py:119-125 | as written: after the token gate, the event's effect on the store, then `received` or a 500, and no order scheduled; the text in `ServerError` records the exception that caused the 500 and is not the response body |
| Routes.HandleEventFixed | api/main.py:119-125 | the same handling with the id handed back: the order the event marked paid is the one scheduled |
| Routes.GetOrderRoute | api/main.py:128-134 | the stored record, or 404 exactly when the id is unknown |
| Frontend.FilterValidFiles | script.js:65-77 | `filterValidFiles`: the images, cut to five or filtered by size, with the alert (`Frontend.FilterValidFilesShape`, `Frontend.CountCapWins` and `Frontend.SizeFilterWhenFew` state it) |
| Frontend.ImageFiles | script.js:66 | the files kept are exactly those whose type starts with `image/` |
| Frontend.SmallFiles | script.js:74 | the files kept are exactly those of at most 10 MB |
| Frontend.FirstTooBig | script.js:71 | the first file over 10 MB, or None exactly when every file fits |
| Frontend.FilterValidFilesShape | script.js:65-77 | the selection is a subsequence of the input, made of images, with at most five files |
| Frontend.CountCapWins | script.js:67-70 | with more than five images, it keeps the first five, sizes unchecked, with the count alert |
| Frontend.SizeFilterWhenFew | script.js:71-76 | with at most five images, it keeps exactly those of at most 10 MB; the alert names the first oversized one, and there is no alert when all fit |
| Frontend.OversizedImageCanPassFilter | script.js:67-70 | an image over 10 MB among the first five of six is kept |
| Frontend.RoundedTenths | script.js:28-29 | the tenths `toFixed(1)` rounds to are within half a tenth of the exact size |
| Frontend.FormatSize | script.js:26-30 | `formatSize` (`Frontend.FormatSizeBytes` and `Frontend.FormatSizeScaled` state it) |
| Frontend.FormatSizeBytes | script.js:27 | under 1 KB the label is the byte count followed by " B", and reads back as that count |
| Frontend.TenthsRoundTrip | script.js:28-29 | a one-decimal label reads back as its number of tenths |
| Frontend.FormatSizeScaled | script.js:28-29 | from 1 KB on, the label is the size in KB below 1 MB and in MB above, rounded to a tenth and at least 1.0 |
| Frontend.JustUnderOneMegabyte | script.js:28 | 1048575 bytes are shown as "1024.0 KB" |
| Frontend.CheckoutForm | script.js:120-134 | the guard of `goToCheckout` and the form it posts (`Frontend.CheckoutFormGuard` states it) |
| Frontend.CheckoutFormGuard | script.js:120-134 | a form is sent exactly when both trimmed fields are non-empty; it then carries exactly the trimmed inputs and the selected files in order |
| Frontend.FormWithinServerCount | script.js:67-70 | a form built from the selection never exceeds the server's five-file limit |

## Left out

- Persistence: `orders.json` is loaded and saved on every store call. The model keeps
  the dictionary in memory, so concurrent writers that lose each other's updates are
  not modelled.
- Concurrency: two fulfilments of one order (background task and `run`) are not
  modelled, and the source takes no lock.
- `_checkout_value` and the item's `value` (`round(valor, 2)`) are left out: floating point.
- The item's `imageBase64` placeholder is left out: it is a constant with no bearing on
  the flow.
- Asaas.CriarCheckout does not model the parsing of the HTTP error body or of the
  reply. The reply is given already split into a transport failure (with its message)
  or an `id` string. A reply that is not JSON or not UTF-8 raises a ValueError
  subclass, which gives the same 502 as a transport failure. A reply that is JSON but
  not an object raises AttributeError at `data.get`, and a read timeout raises
  TimeoutError. Neither is a ValueError, so both give a 500 in the source; the model
  has no reply for them.
- Neither SMTP (`mail.py`) nor the text and attachments of the email is modelled: the
  mailer is an input. `log_email` is modelled only as the appended failure line.
- `Image.open`/`convert("RGB")` and the PNG re-encoding through `as_image().save` are
  left out. The bytes returned are the part's inline data, and an upload that PIL
  cannot open is not distinguished from an SDK failure. `time.sleep(5)` is left out.
- `api/pdf.py` and `api/teste_image.py` are not part of this model.
- `str.lower()` is ASCII lower-casing. For the tests it decides (image extensions,
  "quota", "true") it is exact: no other character lowercases to the ASCII letters
  involved.
- Path components: a file name holding `/` or `..` addresses another folder in the
  source. The model keys files by (order id, name) and does not resolve paths.
- The `GET /health` route, CORS and the uvicorn entry point are left out.
- The DOM side of `script.js` is left out: `showAlert`, the file list text of `setFiles`,
  drag and drop, the success/cancel banner, and `fetch` with its error display.
- `Process.Services.generate` is a function of the image bytes, as is the SDK oracle.
  Two uploads with the same bytes in one order therefore get the same Gemini outcome.
  No stated property depends on this.
- Time stamps are the clock's `isoformat()` string, given as a parameter.
- Process.RunAll and Process.Run: one clock value `now` stamps every order a run marks
  processed. The source reads the clock again on each `update_order_status` call
  (api/store.py:100-101), so its time stamps can differ from order to order within one run.
- The body of a 500: FastAPI answers `Internal Server Error` whatever the exception.
  The model keeps the exception's text only as a record of the cause.
- Process.ProcessedIffNoFailure is stated as two implications, not an if-and-only-if.
  When the order is already "processado" with the same time stamp, the status write
  changes nothing.

## Findings

| source | as written | input that shows it | evidently intended | confidence | as-written member | corrected member |
|---|---|---|---|---|---|---|
| api/asaas.py:112-137 with api/main.py:119-124 | `processar_webhook` returns the bool of `update_order_pagamento`, and the route passes that bool to `store.get_order` as an order id; a bool equals no str key, so the webhook never queues a fulfilment, and a paid order waits for the next `run` | a CHECKOUT_PAID event whose `checkout.id` is stored on order "a": the order becomes paid, `get_order(True)` is None, nothing is scheduled | `processar_webhook` hands back the id of the order it marked, and the route queues that order for `processar_pedido` | not executed | Routes.WebhookAsaas, Routes.PaidEventQueuesNothing | Asaas.ProcessarWebhookFixed, Routes.WebhookAsaasFixed, Routes.FixedSchedulesMarkedOrder |
