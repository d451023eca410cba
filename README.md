# Shape predictor label decision

This project models `shape_predictor` from `src/predictor.py`: the service's
classifier that turns an image into one of the labels `shape not found`,
`unknown`, `triangle`, `rectangle`, `pentagon`, `hexagon` and `circle`.

Everything up to the vertex count is OpenCV computation: grayscale
conversion, binary thresholding, outer-contour extraction, arc length and
polygon approximation. The model takes the result of that pipeline as its
input, a sequence holding the approximated vertex count of every contour in
the order `findContours` returned them. What the repository decides itself is
modelled exactly:

- an empty contour sequence gives `shape not found` at once;
- otherwise only the first contour is used;
- its vertex count picks the label via a Python dict display whose keys are six
  boolean predicates, indexed with `[True]`.

Module `PyDict` (`py_dict.dfy`) gives the Python semantics that dispatch needs.
A dict display is a left-to-right fold of its entries into a `map`. A repeated
key overwrites the value stored before it. `d[k]` on a missing key is the
KeyError case, written `None`. The module proves that the value stored under a
key is the value of the last entry with that key. It also proves that the
lookup fails exactly when no entry has the key.

Module `Predictor` (`predictor.dfy`) builds the six entries exactly as the
source writes them. `ShapePredictor` returns a `Result` whose error case is
the KeyError that `[True]` would raise. The lemmas prove three things:

- for every vertex count exactly one key is `True`, so the error case never
  happens;
- the dispatch equals an ordered if/else-if chain (`Classify`);
- the result is always one of the seven labels.

An ordered if/else-if chain (`Classify`) states the same partition without
relying on key collisions. The model follows the code as written and proves
the two agree on every natural number.

## Model

| member | source | states |
|---|---|---|
| PyDict.GetItem | src/predictor.py:34 | `d[k]` fails with KeyError exactly when `k` is not a key of `d`, and otherwise yields the value stored under `k` |
| PyDict.Store | src/predictor.py:27-34 | storing display entries into a dict leaves exactly the old keys plus the keys of the entries |
| PyDict.Display | src/predictor.py:27-34 | the keys of the dict a display evaluates to are exactly the keys of its entries |
| PyDict.StoreKeepsUnmentioned | src/predictor.py:27-34 | a key that no entry mentions keeps its presence and value from before the display was stored |
| PyDict.StoreLastWins | src/predictor.py:27-34 | overwrite semantics: after storing the entries, a key maps to the value of the last entry with that key |
| PyDict.DisplayGetItem | src/predictor.py:27-34 | `{entries}[k]` succeeds and yields the value of the last entry whose key is `k` |
| PyDict.DisplayGetItemMissing | src/predictor.py:34 | `{entries}[k]` raises KeyError if and only if no entry has key `k` |
| PyDict.UniqueKeyGetItem | src/predictor.py:27-34 | when exactly one entry has key `k`, the lookup yields that entry's value whatever the other entries are |
| Predictor.Entries | src/predictor.py:28-33 | the display has six entries whose labels are pairwise distinct and are the six labels other than `shape not found`; that exactly one key is true is `ExactlyOneKeyTrue` |
| Predictor.DictDispatch | src/predictor.py:27-34 | `{...}[True]` succeeds exactly when the built dict has the key `True` and otherwise raises `KeyError(True)`; that it never raises is `TrueKeyPresent`, that it equals `Ok(Classify(v))` is `DispatchIsClassify` |
| Predictor.Classify | src/predictor.py:28-33 | the reference if/else-if chain always yields one of the labels and never `shape not found` |
| Predictor.ShapePredictor | src/predictor.py:18-34 | never raises; the result is one of the seven labels; it is `shape not found` exactly when there are no contours; otherwise it is the reference classification of the first contour's vertex count |
| Predictor.TrueIndex | src/predictor.py:27-34 | names the one position among the six entries whose predicate holds; every other predicate is false there |
| Predictor.ExactlyOneKeyTrue | src/predictor.py:27-34 | for every natural vertex count at least one of the six predicate keys is true and no two are |
| Predictor.TrueKeyPresent | src/predictor.py:27-34 | the dict built by the display always contains the key `True`, so the `[True]` lookup never fails |
| Predictor.DispatchIsClassify | src/predictor.py:27-34 | the dict-of-predicates lookup equals the ordered if/else-if classifier for every natural vertex count |
| Predictor.ClassifyBands | src/predictor.py:28-33 | each label comes from exactly its band: fewer than 3 is `unknown`, 3 `triangle`, 4 `rectangle`, 5 `pentagon`, 6 `hexagon`, more than 6 `circle` (both directions) |
| Predictor.FirstContourDecides | src/predictor.py:18-25 | contours after the first never change the result |
| Predictor.UnitTestLabels | src/tests.py:37-40 | no contours gives `shape not found`; a first contour of 4 vertices gives `rectangle`; one of more than 6 gives `circle` |

## Left out

- The OpenCV calls `cvtColor`, `threshold`, `findContours`, `arcLength` and `approxPolyDP` (src/predictor.py:14-16, 23-24) are foreign library code. The approximation tolerance `epsilon*perimeter` is floating point. Their combined output is the input sequence of vertex counts. The order of that sequence is whatever `findContours` produces.
- Reading `env.threshold_binary` and `env.approx_poly_dp_epsilon` (src/predictor.py:11-12) only feeds the OpenCV calls above. src/environment.py loads process configuration from environment variables and is not part of this model.
- src/main.py registers the HTTP routes and starts the server. It is I/O plumbing and is not part of this model.
- Payload validation (`NPImage`, `NPIMAGE_ERRORS`) lives in `models.py`. That file is not part of this model, so the HTTP tests at src/tests.py:43-76 are left out too. Only the label the circle test expects informs `UnitTestLabels`.
- Contours enter the model only as vertex counts. Their point lists are not represented.
