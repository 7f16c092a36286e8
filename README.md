# Firecrawl credential dialog

A model of the configuration dialog through which a user of Dify enters a
Firecrawl API key and an optional base URL for the website data source.
The dialog keeps the two fields as form state, updates one field per
keystroke, and on "save" checks the input in a fixed order: the base URL must
be empty or start with `http://` or `https://`; the API key must be present;
the API key must start with `fc-`. The first failed check is shown as an
error toast and the save stops. A valid form becomes a create-credential
request (`category: website`, `provider: firecrawl`, `auth_type: bearer`,
the key unchanged, an empty base URL replaced by `https://api.firecrawl.dev`),
after which a success toast is shown and the caller's `onSaved` runs.

- `firecrawl_config.dfy`, module `FirecrawlConfig`: the form state as a value,
  the per-field update, the validation, the request body, and what they
  promise together. An empty string stands for JavaScript's falsy field and
  `startsWith` is Dafny's sequence prefix `<=`.
- `config_modal.dfy`, module `ConfigModal`: the dialog as a class whose
  `config` field the change handler replaces and whose save handler runs
  the checks step by step on a local `errorMsg`. Toasts, the request and
  the callback are appended to a ghost event log, in the order they happen;
  the log's projections (requests, toasts, callback count) state what one
  save does and the invariant every save keeps.

## Model

| member | source | states |
|---|---|---|
| FirecrawlConfig.WithField | web/app/components/header/account-setting/data-source-page/data-source-website/config-firecrawl-modal.tsx:35-39 | the changed field reads back the new value and every other field reads back its old value |
| FirecrawlConfig.WithFieldLastWriteWins | web/app/components/header/account-setting/data-source-page/data-source-website/config-firecrawl-modal.tsx:37 | two changes of one field leave only the last value; changes of different fields commute |
| FirecrawlConfig.Validate | web/app/components/header/account-setting/data-source-page/data-source-website/config-firecrawl-modal.tsx:42-54 | no error exactly when the base URL is empty or http(s) and the key starts with `fc-`; the URL error exactly when a non-empty URL lacks both schemes, whatever the key (so an empty URL never gives it); past that check, an empty key gives "field required" for `API Key` and never the format error; a non-empty key without `fc-` gives the format error |
| FirecrawlConfig.BuildPayload | web/app/components/header/account-setting/data-source-page/data-source-website/config-firecrawl-modal.tsx:63-73 | category, provider and auth type are `website`, `firecrawl`, `bearer`; the key is passed unchanged; a non-empty base URL is kept, an empty one becomes the default; the sent base URL is never empty |
| FirecrawlConfig.DefaultBaseUrlIsHttps | web/app/components/header/account-setting/data-source-page/data-source-website/config-firecrawl-modal.tsx:23 | the default endpoint starts with `https://` |
| FirecrawlConfig.ValidExactlyWhenPayloadAccepted | web/app/components/header/account-setting/data-source-page/data-source-website/config-firecrawl-modal.tsx:42-73 | validation passes if and only if the request it builds has the fixed constants, a key with the `fc-` prefix and an http(s) base URL |
| FirecrawlConfig.PayloadConfigIsFixedPoint | web/app/components/header/account-setting/data-source-page/data-source-website/config-firecrawl-modal.tsx:63-73 | the configuration sent for a valid form validates again, and building a request from it gives the same request |
| ConfigModal.SubmissionsAppend | web/app/components/header/account-setting/data-source-page/data-source-website/config-firecrawl-modal.tsx:74 | the requests of a concatenated log are those of each part, in order |
| ConfigModal.NotificationsAppend | web/app/components/header/account-setting/data-source-page/data-source-website/config-firecrawl-modal.tsx:57-60 | the toasts of a concatenated log are those of each part, in order |
| ConfigModal.CallbackCountAppend | web/app/components/header/account-setting/data-source-page/data-source-website/config-firecrawl-modal.tsx:79 | the `onSaved` calls of a concatenated log add up |
| ConfigModal.SaveEffects | web/app/components/header/account-setting/data-source-page/data-source-website/config-firecrawl-modal.tsx:56-79 | on a validation error: no request, exactly one error toast carrying that error, no `onSaved`; on success: exactly one request carrying the built payload, exactly one success toast, exactly one `onSaved`, the request first and `onSaved` last |
| ConfigModal.SaveKeepsLogInvariant | web/app/components/header/account-setting/data-source-page/data-source-website/config-firecrawl-modal.tsx:41-80 | after any save, every request ever sent carries an acceptable payload and `onSaved` has run once per request |
| ConfigModal.Modal.constructor | web/app/components/header/account-setting/data-source-page/data-source-website/config-firecrawl-modal.tsx:30-33 | the dialog opens with an empty key, an empty base URL and nothing sent |
| ConfigModal.Modal.Change | web/app/components/header/account-setting/data-source-page/data-source-website/config-firecrawl-modal.tsx:35-39 | the form becomes the old form with the one field replaced; nothing is sent or shown |
| ConfigModal.Modal.Save | web/app/components/header/account-setting/data-source-page/data-source-website/config-firecrawl-modal.tsx:41-80 | the form is unchanged, the events of one save are appended to the log, and the log invariant is kept |

## Left out

- The rendered dialog (portal, fields, buttons, icons, external links, the encryption note): layout with no behaviour.
- Translated message texts: a toast carries the validation error or the success marker instead of the looked-up string.
- `Toast.notify`, `createFirecrawlApiKey` and `onSaved` are foreign calls; each is an event appended to a ghost log.
- A rejected create-credential request is not caught by the save handler; the model treats the request as completing, so it does not capture the save stopping before the success toast when the service fails.
- `async`/`await`, `useCallback` dependencies and memoisation: scheduling, not logic; in particular two saves in flight at once are not modelled.
- The cancel button only forwards to the caller's `onCancel`; it has no state of its own.
- ConfigModal.Modal.Change: takes one of the two field names the dialog's inputs pass; an arbitrary key, or a number passed through the `as string` cast, is not modelled.
