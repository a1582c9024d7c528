# IMDB sentiment service: text cleaning and request outcomes

A Dafny model of the inference core of a small Flask service that classifies
movie reviews as positive or negative (`app.py`). It covers two parts. The
first is `clean_text`, the four-stage normaliser: lowercase, delete HTML-like
tags, delete digit runs, delete punctuation. The second is the request-outcome
rules of `POST /predict` and `GET /health`: which status code and which JSON
payload the service answers with, given the artifacts loaded at start-up and
the request body.

Everything is pure, as in the source. `clean_text` is a chain of string
transforms, and the handlers are early-return conditionals over two module
globals that are assigned once at import. The fitted TF-IDF vectorizer and the
logistic-regression model are opaque functions carried inside the artifacts.
They may raise, and the handler's catch-all turns any exception into a 500.

Modules:

- `Wrappers` (`wrappers.dfy`): `Option`.
- `Subsequences` (`subsequences.dfy`): the subsequence relation and `Avoids`
  (no element satisfies a predicate), with transitivity and transfer
  lemmas.
- `Preprocessing` (`preprocessing.dfy`): `Lower`, `StripTags`, `StripDigits`,
  `StripPunct` and their composition `CleanText`.
- `CleanTextSamples` (`clean_text_samples.dfy`): texts built from words,
  single characters and tags, and the four inputs of the `clean_text` unit
  test with their exact cleaned output.
- `PythonValues` (`python_values.dfy`): decoded JSON as Python sees it, the
  exceptions the handler can meet, and Python's truthiness, `in` and `[]` on
  those values.
- `Service` (`service.dfy`): artifacts, the request body, responses,
  `Load`, `Predict` and `Health`.

How the model reads the Python:

- `str.lower` is modelled on ASCII `A`-`Z` only.
- `\d` is Unicode-aware in Python. It is a parameter `isDigit`, and
  `IsDigitClass(isDigit)` requires only that it agree with `0`-`9` on the
  ASCII range.
- `StripTags` scans left to right. At each `<` it looks for the first `>`
  before any newline. If there is one, the whole span goes and the scan
  resumes after it. Otherwise the `<` stays. This is what the non-greedy
  `<.*?>` does when `.` does not match a newline.
- Deleting every maximal run of digits deletes every digit, so `StripDigits`
  deletes characters one at a time.
- `string.punctuation` is the 32-character constant `Punctuation`.
  `PunctuationIsAsciiSymbols` proves it equals the four ASCII ranges of
  `IsPunct`.
- `request.get_json()` either returns no document (`NoJson`, read as
  `None`), raises (`Rejected`), or returns a decoded document (`Parsed`).
- `not data or 'review' not in data` follows Python per type:
  - a dict tests its keys;
  - a list tests its elements;
  - a str tests its substrings;
  - `'review' in` a number or `true` raises.
- `data['review']` on a list or a str raises. `review.lower()` on a
  non-string raises. All of these land in the catch-all and give 500.
- The `error` text of a caught exception is `StrOf(e)`, the exception itself.
  Python's exact message wording is not reproduced.

Two outcomes of `POST /predict` differ from what a reader might expect of a
validating endpoint, and the model keeps them as the code has them. An empty
review, `{"review": ""}`, is not rejected: it cleans to the empty text, goes to
the classifier and is answered with 200 (app.py:110-126, `EmptyReviewSucceeds`,
as test_app.py:125-131 expects). A review that is not a string is not a 400
either: `lower()` raises inside the `try` and the catch-all answers 500
(app.py:110, 128-129, `NonStringReviewIsServerError`). Errors carry only an
`error` message, with no separate error kind.

## Model

| member | source | states |
|---|---|---|
| `Preprocessing.LowerChar` | app.py:21 | the result is never an ASCII capital; a capital maps to the same letter in lower case, every other character to itself |
| `Preprocessing.Lower` | app.py:21 | same length, lowercases each position, no capital in the output, identity on text with no capitals |
| `Preprocessing.LowerKeepsChar` | app.py:21 | a leading non-capital passes through lowercasing unchanged |
| `Preprocessing.LowerAppend` | app.py:21 | lowercasing distributes over concatenation |
| `Preprocessing.CloseAt` | app.py:22 | finds the first `>` with no newline before it; when none is found, every `>` has a newline before it |
| `Preprocessing.StripTags` | app.py:22 | tag removal only deletes characters (the output is a subsequence of the input) and leaves text without `<` unchanged |
| `Preprocessing.StripTagsKeepsChar` | app.py:22 | a leading character other than `<` is kept |
| `Preprocessing.StripTagsPlainPrefix` | app.py:22 | a prefix without `<` is kept whole, in front of what the rest becomes |
| `Preprocessing.StripTagsDropsTag` | app.py:22 | a leading `<…>` whose inside holds no `>` and no newline vanishes entirely |
| `Preprocessing.StripTagsKeepsUnclosed` | app.py:22 | a `<` with no `>` before the next newline is kept, and the scan resumes right after it |
| `Preprocessing.CloseAtLower` | app.py:21-22 | lowercasing first does not move where a tag closes, or whether it does |
| `Preprocessing.StripTagsClosedTagsGone` | app.py:22 | when every `<` is closed on its line, no `<` survives |
| `Preprocessing.Remove` | app.py:23-24 | deleting a class of characters leaves a subsequence with none of them, and is the identity when there is none |
| `Preprocessing.RemoveKeepsOthers` | app.py:23-24 | every character outside the deleted class keeps its number of occurrences |
| `Preprocessing.RemoveCons` | app.py:23-24 | a leading character is dropped exactly when it is in the class |
| `Preprocessing.RemoveAppend` | app.py:23-24 | deletion distributes over concatenation |
| `Preprocessing.StripDigits` | app.py:23 | digit removal leaves a subsequence with no `0`-`9`, and is the identity on digit-free text |
| `Preprocessing.PunctuationIsPunct` | app.py:24 | `string.punctuation` has 32 characters, all of them ASCII symbols |
| `Preprocessing.PunctIsInPunctuation` | app.py:24 | every printable ASCII character that is not a letter, digit or space is in `string.punctuation` |
| `Preprocessing.PunctuationIsAsciiSymbols` | app.py:24 | membership in `string.punctuation` is exactly `IsPunct` |
| `Preprocessing.StripPunct` | app.py:24 | punctuation removal leaves a subsequence with no `IsPunct` character, and is the identity on text without any |
| `Preprocessing.StripPunctRemovesPunctuation` | app.py:24 | no character of `string.punctuation` survives punctuation removal |
| `Preprocessing.CleanText` | app.py:19-25 | the output has no capital, no digit and no punctuation, and is a subsequence of the lowercased input |
| `Preprocessing.CleanTextOutputCharacters` | app.py:19-25 | in the characters' own terms: no `A`-`Z`, no `0`-`9` and nothing of `string.punctuation` in the output |
| `Preprocessing.CleanTextFixedPoints` | app.py:19-25 | `clean_text` leaves a text unchanged exactly when it has no capital, no digit and no punctuation |
| `Preprocessing.CleanTextIdempotent` | app.py:19-25 | cleaning twice gives the same as cleaning once |
| `Preprocessing.CleanTextPlainPrefix` | app.py:19-25 | a prefix with no digit and no punctuation comes out lowercased, in front of the cleaned rest |
| `Preprocessing.CleanTextEmpty` | app.py:19-25 | the empty text cleans to the empty text |
| `Preprocessing.CleanTextDropsSymbol` | app.py:19-25 | a leading digit or punctuation character other than `<` is dropped |
| `Preprocessing.CleanTextDropsUnclosed` | app.py:19-25 | a leading `<` whose tag does not close on its line survives the tag stage, is dropped as punctuation, and the text after it is cleaned as usual |
| `Preprocessing.CleanTextDropsTag` | app.py:19-25 | a leading tag closed on its line is dropped, brackets included |
| `CleanTextSamples.CleanTextSpell` | app.py:19-25 | a text built of words, marks and closed tags cleans to its words alone, lowercased, in order |
| `CleanTextSamples.HtmlSample` | test_app.py:50-54 | `"<p>This is a <b>test</b> review</p>"` cleans to `"this is a test review"`, so no `<` and no `>` remain |
| `CleanTextSamples.NumberSample` | test_app.py:56-60 | `"This movie got 5 stars and 10/10 rating"` cleans to `"this movie got  stars and  rating"`, so no `5` and no `10` remain |
| `CleanTextSamples.PunctuationSample` | test_app.py:62-67 | `"Hello, world! How are you?"` cleans to `"hello world how are you"`, so no `,`, `!` or `?` remain |
| `CleanTextSamples.UppercaseSample` | test_app.py:69-72 | `"THIS IS A TEST"` cleans to `"this is a test"` |
| `PythonValues.HasSubstringAt` | app.py:106 | `part in s` on strings holds exactly when `part` occurs at some offset of `s` |
| `PythonValues.Contains` | app.py:106 | `'review' in data` tests a dict's keys, a list's elements and a str's substrings, and raises "not iterable" on any other value |
| `PythonValues.Subscript` | app.py:110 | `data['review']` yields a value only for a dict holding the key; otherwise a missing-key error, or a bad-index-type error on a list or str |
| `Service.Load` | app.py:10-17 | both artifacts are present or both absent, and present exactly when both loads succeed |
| `Service.Max` | app.py:117 | the maximum is an element of the row and at least every element |
| `Service.First` | app.py:116-117 | `[0]` yields the first element, and raises exactly on an empty array |
| `Service.MaxOf` | app.py:117 | `.max()` yields the row's maximum, and raises exactly on an empty row |
| `Service.Classify` | app.py:113-117 | succeeds exactly when transform, predict and predict_proba succeed with non-empty results; the class is the first prediction and the confidence the maximum of the first probability row |
| `Service.Label` | app.py:120 | the label is `"positive"` exactly when the class is 1, and `"negative"` otherwise |
| `Service.GetJson` | app.py:105 | an absent document reads as `None`, a malformed one raises |
| `Service.NoReview` | app.py:106 | a falsy body counts as missing without a membership test; a dict lacks the review exactly when the key is absent, a truthy list exactly when no element is the string `"review"`, a truthy str exactly when `"review"` is not a substring; it raises exactly for a truthy body that is not a dict, list or str |
| `Service.CleanReview` | app.py:110 | cleaning succeeds exactly on a string and gives `CleanText` of it; any other value raises "no attribute `lower`" |
| `Service.Handle` | app.py:105-126 | a body `get_json` rejects raises `BadRequest`; an answer that does not raise is a 200 or a 400, a 400 exactly for the bodies `LacksReview` lists and always with "No review text provided", and a 200 only for a string review, echoed as `original_text` |
| `Service.Predict` | app.py:98-129 | status is 200, 400 or 500; with an artifact missing, 500 "Model not loaded properly" for every body; otherwise 400 "No review text provided" exactly for the bodies `LacksReview` lists; 200 exactly when the review is a string and classification of its cleaned text succeeds, with the raw review as `original_text` and `"positive"` exactly for class 1; every other answer is a 500 with an error |
| `Service.Health` | app.py:131-138 | always 200 `"healthy"`, with each flag equal to the presence of its artifact |
| `Service.ArtifactsCheckedFirst` | app.py:102-103 | with an artifact missing, every body gets the same "not loaded" answer |
| `Service.HealthAgreesWithPredict` | app.py:102-138 | `predict` answers "not loaded" exactly when `health` reports a flag as false |
| `Service.StartupFlagsAgree` | app.py:10-17 | after start-up, the two health flags are equal, and true exactly when both loads succeeded |
| `Service.EmptyObjectIsBadRequest` | app.py:106-107 | the body `{}` gets 400 "No review text provided" |
| `Service.MalformedJsonIsServerError` | app.py:105 | a body `get_json` rejects gets 500 carrying that exception, not 400 |
| `Service.NonStringReviewIsServerError` | app.py:110 | a non-string review gets 500 carrying the missing-`lower` exception |
| `Service.NonObjectBodyNeverSucceeds` | app.py:106-110 | a truthy body that is not a dict gets 400 when `'review' in data` is false, and 500 otherwise |
| `Service.EmptyReviewSucceeds` | app.py:110-126 | `{"review": ""}` gets 200 with an empty `original_text` whenever the classifier accepts the empty text |
| `Service.OnlyCleanedTextIsClassified` | app.py:110-126 | two string reviews with the same cleaned text get the same status, label and confidence |

## Left out

- HTTP and Flask are not modelled. That covers routing, decoding the wire body into JSON, content-type negotiation, `jsonify`, and the 405 answer to `GET /predict`. The decoded body is the `Body` datatype.
- The home page (app.py:27-96) is not modelled. It is HTML, CSS and JavaScript with no logic.
- `joblib.load` of the pickle files and the messages printed at start-up are not modelled. They are file I/O and console output. Only each load's outcome is modelled, as `Load`'s parameters.
- scikit-learn's `transform`, `predict` and `predict_proba` are opaque functions. The TF-IDF weighting, the logistic-regression arithmetic and floating point are foreign library numerics.
- Classify: nothing is proved about the confidence's range or its threshold relation to the label (`0 < confidence <= 1`, `confidence >= 0.5`). Both depend on the library's probabilities, which the model leaves opaque.
- Lower: Python's full Unicode case mapping is not modelled, only ASCII `A`-`Z`. Non-ASCII capitals keep their case: Python lowercases `"GRÉAT"` to `"gréat"`, the model gives `"grÉat"`.
- StripDigits: the Unicode digit class of `\d` is the parameter `isDigit`. The model fixes it only on ASCII.
- The exact wording of Python exception messages (`str(e)`) is not modelled. The payload carries the exception value instead.
- JSON `NaN` and infinities are not modelled, and neither are numpy's NaN-propagating `max`. Numbers are Dafny `int` and `real`.
- `prediction == 1` compares with a numpy integer. The model assumes integer class labels.
- The timing, file-existence and configuration tests (test_app.py:186-237) are not modelled. They check the environment, not logic.
