# Spedy invoice emission, modelled in Dafny

The repository is one PHP file, `enviar_notas_fiscais.php`. It has two functions:

- `jsonNotaFiscal` maps one approved transaction to the service-invoice payload that the Spedy invoicing API expects.
- `emitirNotaFiscal` looks that transaction up by a payment provider's transaction id (Woovi, EFI Bank or LunoxPay), posts the payload, logs the outcome and returns the transaction.

The model has four modules:

- `Wrappers` (`wrappers.dfy`): `Option`. `None` stands for PHP's `null` and for an SQL NULL.
- `PhpTrim` (`php_trim.dfy`): PHP's `trim()` with its default character list (space, tab, newline, carriage return, NUL, vertical tab). `Trim` is the forward and backward scan that PHP performs. The lemmas prove the following:
  - the result is the only trimmed text between two all-space margins;
  - trimming is idempotent;
  - the result is empty exactly when the input is all whitespace;
  - whitespace added at either end never survives;
  - trimming a join removes only the outer margins.
- `InvoicePayload` (`invoice_payload.dfy`): the payload as nested datatypes, one per JSON object, and `BuildInvoice`, which models `jsonNotaFiscal` before serialisation. Its contract gives each field rule:
  - the id goes to both `integrationId` and `number`;
  - the receiver name is the trimmed join of the two names;
  - e-mail, phone and description pass through unchanged;
  - both amounts are the transaction's `valor`;
  - every other total is zero and nothing is withheld;
  - the tax-id, address, city, service-code, location and municipal-benefit keys are present and null, except `country`, which is "BRA";
  - of the tax-reform keys only `operationIndicatorCode` is null: `cst` and `classification` are 0 and `isPersonalUse` is true;
  - the literals are fixed: `"BRA"`, `"created"`, `true`, `0`.
- `Emission` (`emission.dfy`): the `WHERE … LIMIT 1` selection as `Select`, and `emitirNotaFiscal` as the method `EmitInvoice`. The store's answer, the HTTP status and the response body are inputs. The method returns three things: the transaction or `None`, the payload it posted (if any), and the kind of log line it writes. Its contract states the return and log rules:
  - `null` only for "not found" and for a database exception;
  - the row is returned whatever the API answers;
  - success is logged if and only if the code is 200 or 201.

NULL columns follow PHP:
- a NULL `nome` or `sobrenome` joins as "";
- a NULL `valor` casts to 0.0;
- a NULL e-mail, phone or description passes through as null.

`trim` strips only the two ends of `nome . " " . sobrenome`, so spaces at the joint are kept: a first name stored as "Ana " gives "Ana  Silva" (`TrailingBlankInFirstNameKept`).

## Model

| member | source | states |
|---|---|---|
| PhpTrim.LeadingCount | enviar_notas_fiscais.php:24 | the count of leading whitespace: every character before it is a trim character, and the one at it (if any) is not |
| PhpTrim.TrailingCount | enviar_notas_fiscais.php:24 | the same count taken from the back of the string |
| PhpTrim.Trim | enviar_notas_fiscais.php:24 | `trim` keeps a contiguous slice of its input that starts right after the leading whitespace, has only whitespace after it, and neither starts nor ends with a trim character |
| PhpTrim.TrimAt | enviar_notas_fiscais.php:24 | any slice with only whitespace before and after it, and no whitespace at its own ends, is exactly what `trim` returns (uniqueness) |
| PhpTrim.TrimOfPadded | enviar_notas_fiscais.php:24 | trimming all-space margins `u` and `v` around a trimmed `m` gives back `m` |
| PhpTrim.TrimSplit | enviar_notas_fiscais.php:24 | every string is its leading whitespace, then its trimmed text, then its trailing whitespace |
| PhpTrim.TrimIdempotent | enviar_notas_fiscais.php:24 | trimming twice is the same as trimming once |
| PhpTrim.TrimEmptyIff | enviar_notas_fiscais.php:24 | `trim` returns "" if and only if the input is all whitespace |
| PhpTrim.TrimAppendSpace | enviar_notas_fiscais.php:24 | whitespace appended to a string does not change its trim |
| PhpTrim.TrimPrependSpace | enviar_notas_fiscais.php:24 | whitespace prepended to a string does not change its trim |
| PhpTrim.TrimJoin | enviar_notas_fiscais.php:24 | trimming the join of two non-blank texts removes only the outer margins; whitespace at the joint is kept |
| InvoicePayload.Text | enviar_notas_fiscais.php:24 | a NULL name column converts to "" when concatenated; a present one is unchanged |
| InvoicePayload.Amount | enviar_notas_fiscais.php:65-66 | the `(float)` cast of `valor`: the stored amount, or 0.0 for NULL |
| InvoicePayload.ReceiverName | enviar_notas_fiscais.php:24 | the receiver name is `trim` of the first name, one space and the last name (NULL names as ""), and has no whitespace at either end |
| InvoicePayload.BuildInvoice | enviar_notas_fiscais.php:15-125 | `integrationId` and `number` are both the row id; the timestamps are the two clock readings; the receiver name is the trimmed join and has no whitespace at either end; e-mail, phone and description pass through; both amounts are `valor`; every other total is 0 and no flag is withheld; tax ids, address and city are null and the country is "BRA"; service codes are null; status "created", e-mail sending on, batch/RPS 0, location null, `ibsCbs` = (0, 0, null, personal use), municipal benefit null |
| InvoicePayload.PayloadDeterminedBy | enviar_notas_fiscais.php:17-122 | two transactions that agree on id, trimmed name, e-mail, phone, description and amount get the same payload, so the selected `cpf` never reaches it |
| InvoicePayload.SameTimestamps | enviar_notas_fiscais.php:19-20 | `issuedOn == effectiveDate` holds exactly when the two clock readings agree |
| InvoicePayload.NameWithBlankSurname | enviar_notas_fiscais.php:24 | with an empty, all-whitespace or NULL last name, the receiver name is the trimmed first name |
| InvoicePayload.NameWithBlankFirstName | enviar_notas_fiscais.php:24 | with an empty, all-whitespace or NULL first name, the receiver name is the trimmed last name |
| InvoicePayload.NameWithBothNames | enviar_notas_fiscais.php:24 | with both names non-blank, the name is the trimmed first name, the first name's trailing whitespace, one space, the last name's leading whitespace, and the trimmed last name |
| InvoicePayload.AnaSilvaPayload | enviar_notas_fiscais.php:24-66 | "Ana" and "Silva" with amount 150.5 give receiver "Ana Silva", invoice amount 150.5, and the non-ASCII description unchanged |
| InvoicePayload.TrailingBlankInFirstNameKept | enviar_notas_fiscais.php:24 | first name "Ana " and last name "Silva" give "Ana  Silva": the inner whitespace is not collapsed |
| Emission.Matches | enviar_notas_fiscais.php:143-144 | the WHERE clause: the reference equals one of `woovi_tx_id`, `efibank_tx_id`, `lunoxpay_tx_id` (a NULL column equals nothing), and `status` is "Aprovado" |
| Emission.Accepted | enviar_notas_fiscais.php:179 | the API's answer counts as success exactly for HTTP 200 and 201 |
| Emission.Select | enviar_notas_fiscais.php:141-159 | the query yields nothing exactly when no row is approved with one of the three provider ids equal to the reference; otherwise it yields the selected columns of such a row, the first in table order |
| Emission.EmitInvoice | enviar_notas_fiscais.php:133-193 | a store exception gives null and a database-error log with nothing posted; no matching row gives null and a not-found log with nothing posted; a matching row is always returned, its payload is posted, and the call logs success if and only if the code is 200 or 201, otherwise the code and the response body |

## Left out

- SQL and PDO (enviar_notas_fiscais.php:147-154): the table is a sequence of rows or a failure, and the query's `WHERE` clause is `Emission.Matches`. Column comparison is exact string equality; the database collation, which may be case- or trailing-space-insensitive, is not modelled.
- Emission.Select: `LIMIT 1` without `ORDER BY` may return any matching row. The model takes the first in sequence order. `EmitInvoice` promises only "a matching row".
- The PDO error mode: `config/config_db.php` is not part of this model. A failing query is assumed to throw `PDOException`, which is the default since PHP 8.
- The global `$pdo` handle: the store's answer is a parameter instead.
- cURL, the endpoint URL, the API token and the request headers (enviar_notas_fiscais.php:136-137, 165-176): network I/O and configuration. The HTTP code and the response body are inputs. A failure before any response arrives as code 0 with body "". A failure after the status line keeps the code it received, and the source logs by that code alone, so a 201 followed by a broken transfer is logged as success.
- `error_log` message text: only the kind of event and the values it reports are modelled.
- `json_encode(..., JSON_UNESCAPED_UNICODE)` (enviar_notas_fiscais.php:124): the payload is modelled as a structured value, not as JSON bytes. Key order and escaping are not modelled.
- Emission.EmitInvoice: text columns are taken to be valid UTF-8, because a Dafny `string` cannot hold anything else. On invalid UTF-8, `json_encode` returns `false` (enviar_notas_fiscais.php:124), and cURL posts an empty body (:168) instead of the payload. `sent` does not model that empty body. The returned row and the logged event are unaffected.
- `date("Y-m-d\TH:i:s\Z")` (enviar_notas_fiscais.php:19-20): it reads the clock. The two readings are two parameters, so equal timestamps are not promised across a second boundary.
- InvoicePayload.Amount: the `(float)` cast is the identity on an exact `real`. Binary floating-point rounding and casts of non-numeric strings are not modelled.
- The `id` column is opaque. It is carried as a string, but its PHP type depends on the database driver and the PHP version. The model claims only that `integrationId` and `number` both equal it.
- PHP strings are byte strings. The model works on characters. This gives the same trim result, because each trim character is one ASCII byte, and no byte of a multi-byte UTF-8 character is one of them.
