# cx-buenfin-campaign in Dafny

A model of the two scripts behind the Buen Fin e-mail campaign of CX
Sunglasses.

- `send_campaign.py` sends one promotional e-mail per customer of an
  EcomSend export. It records its progress in a JSON file so that an
  interrupted campaign resumes where it stopped.
- `convert_customers.py` turns the same export into rows of the
  contact template (`plantilla-clientes`).

The model is split into these modules:

- `Strings` (strings.dfy): Python's string built-ins as the scripts use them:
  - whitespace as `str.isspace` defines it;
  - `strip`, `lstrip`, `rstrip` and argument-less `split()`;
  - `replace` with a non-empty pattern;
  - `str(int)`.
- `CsvInput` (csv_input.dfy): a row as a column-to-cell map, the byte-order-mark strip and `dict.get`.
- `Dispatch` (dispatch.dfy): `read_customers`, plus what `send_email` does around the provider call. That is the first-name personalisation of the template and the classification of the reply.
- `CampaignProgress` (progress.dfy): the progress dict.
  - `ProgressRecord` is a class whose methods make the loop's in-place updates.
  - `ProgressFile` is the file those updates are saved to.
  - `Snapshot` is the dict's value, and the pure functions over it state what each update does.
- `Campaign` (campaign.dfy): `main` from `load_progress` to the end of the dispatch loop.
  - The methods `RunCampaign`, `SendAll` and `Handle` mutate the record and the file.
  - They are proved equal to the pure specifications `CampaignOutcome`, `Run` and `Step`, in that order.
- `Resume` (resume.dfy): what the loop promises about resuming. The resume point only moves forward, and a success that was recorded and saved is never re-sent. Exceptions raised inside the handlers are not modelled; see "## Left out". Nobody is skipped unless the catch-all handler fires before a send. The counters add up. A campaign whose last row's success was recorded is idempotent (`Resume.ResumeIsIdempotent`).
- `Conversion` (conversion.dfy): `split_name`, `extract_location_info`, `clean_phone`, `format_whatsapp`, the per-row mapping and the conversion loop.

What the outside world does is a parameter of the model:

- The provider's reply to each send is a status code or the text of a raised exception.
- The clock reading is an opaque ISO string.
- An exception escaping to the catch-all handler, or a `KeyboardInterrupt`, is a `Fault`. A fault strikes either before or after the send outcome reaches the progress dict.
- The CSV reader is a function from text to rows.

What the code does, including behaviour a reader might not expect:

- A failed send does not move `last_processed_index`; only a success does (send_campaign.py:164-176). A trailing run of failures is therefore retried on the next run (`Resume.RetryAfterRun`).
- The catch-all handler counts a failure without listing it in `failed_emails` (send_campaign.py:193-197).
- An exception before the send can therefore lose a customer for good. The error is counted and the loop continues, and a later success moves the resume point past that customer (`Resume.UnexpectedErrorSkips`).
- An exception after a success has been recorded counts that customer both as sent and as failed (`Campaign.Step`).
- An interrupt that arrives after the provider accepted a send but before the success is recorded leaves the resume point where it was. The next run sends to that customer again (`Resume.InterruptScenario`).
- `main` reports completion even when the last send failed. That failure is retried on the next run, so a completed campaign is not idempotent in general (`Resume.RetryAfterRun`).
- A name made only of whitespace makes `to_name.split()[0]` raise `IndexError`. That is reported as a failed send with the text `list index out of range`.
- `load_progress` does not handle a corrupt progress file, and `save_progress` overwrites the file in place. The model claims neither a corrupt-state error nor an atomic write.
- `read_customers` raises `KeyError` for a missing `Email address` or `Customer name` column before any e-mail is sent. The model reports the column's name.
- The pause compares customer dicts (send_campaign.py:182). Indices are distinct, so this skips the pause after the last customer only.
- `convert_customers` computes the location (`extract_location_info`) but writes no location column. A converted row therefore never carries the `Location` cell.
- In the "52" branch, `clean_phone` keeps everything after the country code. A thirteen-digit `521…` mobile number cleans to eleven characters, not the ten its comment mentions (`Conversion.CleanPhone`).

## Model

| member | source | states |
|---|---|---|
| CsvInput.StripBom | send_campaign.py:99-101 | one leading U+FEFF is removed; text without one is passed on unchanged |
| CsvInput.Get | send_campaign.py:110-111 | `row.get(key, default)`: the cell when the column exists, otherwise the default |
| Strings.Split | send_campaign.py:65 | `split()` yields non-empty words without whitespace, and none exactly when the text is all whitespace |
| Strings.FirstWordAt | send_campaign.py:65 | the first word starts at the first non-whitespace character and runs to the next whitespace |
| Strings.SplitOfStrip | convert_customers.py:12 | `strip()` does not change the words `split()` finds |
| Strings.ReplaceAbsent | send_campaign.py:66 | `replace` leaves a text without the pattern unchanged |
| Strings.ReplaceFirst | send_campaign.py:66 | text before the first occurrence is kept, the occurrence becomes the replacement, and replacing continues after it |
| Strings.ReplaceDeletes | convert_customers.py:31 | replacing one character by nothing is the filter `Without` that drops exactly that character and keeps the rest in order |
| Strings.NatToString | send_campaign.py:89 | `str(n)` is a non-empty run of decimal digits without a leading zero |
| Strings.NatToStringRoundTrip | send_campaign.py:89 | the digits `str(n)` prints read back as `n` |
| Strings.IntToStringInjective | send_campaign.py:89 | different status codes print differently |
| Dispatch.ToCustomer | send_campaign.py:106-112 | a missing email column fails first, then a missing name column; otherwise the customer keeps its position, and phone and location default to "" |
| Dispatch.CustomersSpec | send_campaign.py:103-112 | the rows at positions from `max(0, start)` on, in order, each tagged with its own position; `max(0, N - start)` of them; an error is the error of the first of those rows that is not a valid recipient, all rows before it being valid |
| Dispatch.ReadCustomers | send_campaign.py:94-114 | the loop that appends each kept row returns exactly `Customers` of the BOM-stripped, parsed text |
| Dispatch.FirstName | send_campaign.py:65 | "amigo" for an empty name; `IndexError` for a name of only whitespace; otherwise a non-empty word without whitespace |
| Dispatch.FirstNameIsLeadingWord | send_campaign.py:65 | the first name is the run of non-whitespace starting at the name's first non-whitespace character |
| Dispatch.PersonalizeWithoutPlaceholder | send_campaign.py:66 | `Personalize` sends a template without `{{CUSTOMER_NAME}}` unchanged |
| Dispatch.PersonalizeAtFirstPlaceholder | send_campaign.py:66 | the first placeholder becomes the first name, the text before it is kept, and the rest is personalised the same way by `Personalize` |
| Dispatch.SendEmail | send_campaign.py:61-92 | sent exactly when the name has a first name and the status is 200, 201 or 202; a name error or raised exception fails with its text |
| Dispatch.RejectedStatusReason | send_campaign.py:86-89 | any other status fails with "Status code: " followed by the code, from which the code is recoverable |
| CampaignProgress.LoadProgress | send_campaign.py:33-45 | the saved record when the file exists; otherwise index -1, both counters 0, no failures, no times |
| CampaignProgress.Started | send_campaign.py:134-135 | `start_time` is set to the current time when absent and kept when present; nothing else changes |
| CampaignProgress.ApplyAttempt | send_campaign.py:164-176 | a success adds one sent and moves the index to the customer; a failure adds one failed and one record {email, name, error, timestamp} and leaves the index and `sent_count` alone |
| CampaignProgress.WithUnexpected | send_campaign.py:195 | the catch-all handler adds one failure and changes nothing else |
| CampaignProgress.Stamp | send_campaign.py:49 | saving stamps `last_run_time` and changes nothing else |
| CampaignProgress.ProgressRecord.Load | send_campaign.py:132 | the in-memory record starts as `load_progress()` |
| CampaignProgress.ProgressRecord.MarkStarted | send_campaign.py:134-135 | updates the record in place as `Started` |
| CampaignProgress.ProgressRecord.Record | send_campaign.py:164-176 | updates the record in place as `ApplyAttempt` |
| CampaignProgress.ProgressRecord.CountUnexpected | send_campaign.py:195 | updates the record in place as `WithUnexpected` |
| CampaignProgress.ProgressRecord.Save | send_campaign.py:47-51 | stamps the run time and overwrites the file with the whole record |
| Campaign.Step | send_campaign.py:153-197 | one customer: only a recorded success moves the index; each recorded outcome counts once, and each catch-all error counts one more failure that is not listed |
| Campaign.Handle | send_campaign.py:153-197 | the loop body leaves the record at `Step` of the old one and saved to the file |
| Campaign.SendAll | send_campaign.py:152-197 | the loop over the customers ends in the state, pause count and interruption `Run` gives, with that state saved |
| Campaign.RunCampaign | send_campaign.py:132-197 | `main` from loading the progress: exit, file contents and pauses are those of `CampaignOutcome`, the pure outcome of `main` |
| Resume.RunLastIsLastDelivered | send_campaign.py:164-176 | the dispatch loop `Run` leaves the index of the last customer whose success it recorded, or the old index when there was none |
| Resume.DeliveredIncreasing | send_campaign.py:104-107 | with customers in position order, the recorded successes come in increasing order |
| Resume.RunNeverResends | send_campaign.py:142-143 | no customer whose success a run recorded lies beyond the index it leaves, so resuming never sends to them again |
| Resume.RunMonotone | send_campaign.py:152-176 | within a run the index never moves back |
| Resume.CampaignMonotone | send_campaign.py:132-197 | the index a campaign leaves in the file is never below the one it loaded |
| Resume.RunNeverSkips | send_campaign.py:152-197 | without catch-all errors before a send, every customer up to the index a run leaves had its outcome recorded |
| Resume.RunWithoutFaults | send_campaign.py:152-185 | without faults, `sent_count + failed_count` grows by one per customer, every failure is listed, and a pause (`PauseAfter`) follows every customer but the last |
| Resume.RunUnlistedFailures | send_campaign.py:193-197 | unlisted failures are exactly the catch-all errors, one each |
| Resume.RunKeepsStartTime | send_campaign.py:152-197 | the loop never changes `start_time` |
| Resume.CampaignStartTime | send_campaign.py:134-135 | a campaign that sends saves the old start time, or this run's clock reading when there was none |
| Resume.NothingLeftLeavesProgress | send_campaign.py:145-149 | with no customers left the run ends without touching the progress file |
| Resume.ResumedCustomers | send_campaign.py:142-143 | a run reads the rows after the saved index, in increasing position order, ending with the export's last row |
| Resume.CampaignSavesRun | send_campaign.py:179 | a campaign that sends leaves its run's final state in the file |
| Resume.RunEndsOnDeliveredLast | send_campaign.py:164-166 | when the last customer's success is recorded, the run ends with the index on that customer |
| Resume.RunEndsBelowUndeliveredLast | send_campaign.py:168-176 | otherwise the run ends with the index below that customer |
| Resume.SavedPointIsLastRow | send_campaign.py:164-179 | after the last row's recorded success the file holds the export's last position |
| Resume.ResumeIsIdempotent | send_campaign.py:142-149 | after the last row's recorded success, running again finds nothing and leaves the file as it is |
| Resume.CustomersPastEnd | send_campaign.py:104-105 | resuming at or past the end reads nobody |
| Resume.CustomersLater | send_campaign.py:104-105 | resuming later in an export that reads cleanly reads cleanly and still ends with its last row |
| Resume.CustomersSuffix | send_campaign.py:104-105 | resuming `d` rows later drops exactly the first `d` recipients |
| Resume.RetryAfterRun | send_campaign.py:168-176 | after a run that leaves the last customer unsent, the next read still ends with that customer |
| Resume.UnsentLastCustomerRetried | send_campaign.py:168-179 | then the saved index is at least the old one and below the export's last position |
| Resume.SendEmailStatus | send_campaign.py:86-89 | whenever the first name can be taken, a status is sent exactly when accepted, otherwise "Status code: <code>" |
| Resume.StepWithoutFault | send_campaign.py:164-179 | a customer handled without fault is recorded, then saved |
| Resume.ThreeCustomerScenario | send_campaign.py:132-185 | replies 202, 500, 202 on a fresh campaign: two sent, one failed and listed with the second customer, index 2, two pauses |
| Resume.InterruptScenario | send_campaign.py:187-191 | an interrupt while the second customer is handled saves the first as the index, and the next run starts at the second |
| Resume.UnexpectedErrorSkips | send_campaign.py:193-197 | an error before the first customer's send, then a success for the second: index 1, one unlisted failure, the first customer never recorded |
| Conversion.SplitName | convert_customers.py:10-17 | ("", "") for a blank name; otherwise the first word and a trimmed remainder whose words are the name's other words |
| Conversion.SplitNameGap | convert_customers.py:12-14 | the stripped name is the first part, one whitespace run and the remainder |
| Conversion.SplitNameWordCount | convert_customers.py:13-16 | one word gives (word, ""); two or more give a non-empty remainder |
| Conversion.ExtractLocationInfo | convert_customers.py:19-24 | the country is always "52"; the location is kept unless it is empty or "-", which give "" |
| Conversion.ThreeFiltersRemoveSeparators | convert_customers.py:31 | dropping '+', then '-', then ' ' gives the same text as dropping all three separators in one pass |
| Conversion.Compact | convert_customers.py:31 | the three chained `replace` calls equal `RemoveSeparators`, one pass that drops every '+', '-' and ' ' and keeps all other characters in order |
| Conversion.CleanPhone | convert_customers.py:26-35 | "" for empty or "-"; never a separator; the compacted number minus a leading "52" when longer than ten, otherwise its last `min(n, 10)` characters |
| Conversion.FormatWhatsapp | convert_customers.py:37-44 | "" exactly when the cleaned number is ""; otherwise "521" for a ten-character number, else "52", followed by the cleaned number |
| Conversion.ConvertRow | convert_customers.py:69-98 | a missing name column fails first, then a missing email column; otherwise the email is copied, the nine survey and spouse fields are empty, `pais` is "52" and `notas` is "Subscribed via <Popup or popup> on <Subscription date or ''>" |
| Conversion.WhatsappExtendsTelefono | convert_customers.py:74-75 | a row's WhatsApp column is empty exactly when its phone column is, and otherwise starts with "52" and ends with the phone column |
| Conversion.ConvertCustomers | convert_customers.py:46-101 | one row written per export row, in order; the count equals the rows written; a missing column stops the loop at that row |

## Left out

- The SendGrid client and message construction (send_campaign.py:72-84, 125) are not visible. A send is the provider's reply: a status code or the text of a raised exception.
- The API-key check (send_campaign.py:119-122) is not modelled. It ends `main` before anything else happens.
- Template loading (send_campaign.py:28-31, 129): the template is a parameter.
- JSON reading and writing: the progress file holds the last record written. Serialisation, a corrupt file and a write that fails halfway are not modelled.
- `log_message` output is not modelled. Only a log write inside the loop's `try` block (send_campaign.py:155, 167, 176, 184) that raises is one of the faults. Log writes in the set-up (send_campaign.py:128-148) and in the final summary (send_campaign.py:199-209) are not caught, and a raise there, which would end `main`, is not modelled.
- CSV parsing (`csv.DictReader`, `splitlines`) is a parameter from text to rows. Quoting rules are not modelled.
- Every cell is a string. For a row shorter than the header, `csv.DictReader` fills the missing cells with `None`, and that is not modelled. In the code, `row.get` then returns `None` rather than its default (send_campaign.py:110-111, convert_customers.py:74-78). A `None` name makes `send_email` fall back to "amigo" (send_campaign.py:65), and `split_name` raises `AttributeError` (convert_customers.py:12).
- The random pause (send_campaign.py:183-185) is counted but has no length.
- `KeyboardInterrupt` is modelled only as a fault that ends the run, before or after the whole outcome is recorded. An interrupt raised inside the handlers themselves is not modelled. Neither is one between send_campaign.py:165 and 166. There the handler saves `sent_count` already raised but `last_processed_index` not yet moved, so the next run sends to that customer again and counts the send twice.
- An exception raised inside the interrupt or catch-all handler would end `main` without a further save, and it is not modelled. This covers `log_message` at send_campaign.py:188-189 and 194, and `save_progress` at 190 and 196. An outcome already recorded in memory is then lost. For example, if the success log at 167 raises and the catch-all's own log at 194 raises again, the file keeps the old index and that customer is sent to again on the next run.
- Campaign.Step: one clock reading per customer serves both the failure record's timestamp and the save's `last_run_time`. The script reads the clock twice (send_campaign.py:174, 49).
- The final summary (send_campaign.py:199-209) and the conversion's progress messages (convert_customers.py:103-108) are log text only.
- The file paths and the CSV writer's header are not modelled. The conversion is modelled as the sequence of rows it writes.
- test_email.py is not part of this model.
- Strings.Replace: only a non-empty pattern is modelled. Every call site passes a non-empty constant.
- Resume.RunNeverSkips: the guarantee excludes catch-all errors before a send, because the code does skip such a customer (`Resume.UnexpectedErrorSkips`).
