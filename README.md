# Microburbs proxy server: response sanitiser

The proxy server in `server.py` forwards a suburb query to the Microburbs
property API, decodes the JSON body it gets back and, before returning it to
the browser, passes the decoded value through `sanitize_data`. That function
walks the nested dicts and lists and replaces every float that is NaN,
+Infinity or -Infinity with `None`, so that the response is standard JSON
(those three have no JSON spelling; `None` is sent as `null`). Every other
value is returned as it is.

This project models that sanitiser and proves what it guarantees:

- `json_value.dfy` (module `JsonValue`): the decoded value tree `Json`
  (null, bool, int, float, string, list, dict), with floats kept abstract as
  `Finite(r) | NaN | PosInf | NegInf` because the sanitiser only asks
  `math.isnan` / `math.isinf`. A dict is the sequence of its (key, value)
  entries in insertion order, which the dict comprehension keeps. The module
  also defines the vocabulary the properties are stated in: `Clean` (no
  non-finite float anywhere), `ShapeOf` (the skeleton of containers, sizes,
  order and keys), `At` (the sub-value at a path of positions) and leaf
  counts (`Nulls`, `NonFinites`).
- `sanitizer.dfy` (module `Sanitizer`): `Sanitize`, which follows the
  branches of `sanitize_data` in order (dict, list, float, anything else),
  using sequence comprehensions where the source uses a dict and a list
  comprehension, and the lemmas about it.

## Model

| member | source | states |
|---|---|---|
| Sanitizer.Sanitize | server.py:22-34 | whatever the input, the result contains no NaN or infinite float at any depth |
| Sanitizer.ShapePreserved | server.py:26-29 | every list keeps its length and order and every dict keeps exactly its keys in insertion order, at every depth; nothing is added or dropped |
| Sanitizer.SanitizeAt | server.py:26-29 | a path of positions reaches a sub-value of the output exactly when it reaches one of the input, and that output sub-value is the sanitised input sub-value (list item i of the output is the sanitised item i, the value of dict entry i is the sanitised value of input entry i; keys are covered by `ShapePreserved`) |
| Sanitizer.NonFiniteReplacedInPlace | server.py:30-33 | a NaN or infinite float found at some position of the input is replaced by null at that same position |
| Sanitizer.ScalarKeptInPlace | server.py:30-34 | a null, bool, int, string or finite float at some position of the input is found unchanged at that same position of the output |
| Sanitizer.IdentityOnClean | server.py:22-34 | for a value with no non-finite float an equal value is returned (for dicts and lists, a freshly built equal copy) |
| Sanitizer.FixedPointIffClean | server.py:22-34 | the sanitiser leaves a value unchanged if and only if that value has no non-finite float |
| Sanitizer.Idempotent | server.py:22-34 | sanitising twice gives the same value as sanitising once |
| Sanitizer.NullCount | server.py:31-33 | the output has as many null leaves as the input had null leaves plus non-finite float leaves |
| Sanitizer.NoNonFiniteLeft | server.py:30-33 | the number of non-finite float leaves in the output is zero |
| JsonValue.CleanIffNoNonFinite | server.py:30-31 | a value has no non-finite float at any depth if and only if its count of non-finite float leaves is zero |

## Left out

- Sanitizer.Sanitize: Python's recursion limit is not modelled; the source recurses once per nesting level (plus a frame per comprehension on older interpreters), so very deeply nested input raises `RecursionError`, which server.py:90-92 turns into a 500 response, whereas the model treats nesting depth as unbounded and always returns a sanitised value.
- The Flask route handlers `get_suburb_properties`, `health_check` and `home` (server.py:36-109): HTTP request and response plumbing (query arguments, `jsonify`, status codes 400, 504 and 500).
- The outbound `requests.get` call to the upstream API with its headers and 10-second timeout (server.py:54-59): network I/O.
- The decoding of the upstream body by `json.loads` with `parse_constant` mapping the `NaN` / `Infinity` / `-Infinity` literals to `None` (server.py:68): a library parser; the model starts from the value tree it yields, which may still hold infinite floats (for instance from an out-of-range number literal).
- The `print` logging inside the sanitiser (server.py:32) and elsewhere: a side effect with no bearing on the returned value.
- CORS set-up and server start-up (server.py:13, 111-118): framework configuration.
- IEEE-754 arithmetic: the sanitiser only tests whether a float is NaN or infinite, so floats are an abstract finite/NaN/±Infinity tag.
- Python values a JSON decoder never produces (tuples, sets, non-string dict keys): the sanitiser returns them untouched, and they are not in the `Json` type.
- The client-side statistics, investment scoring and financial formulas: their source files are not part of this model.
