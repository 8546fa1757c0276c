# GPT4-ExpertManager: experts and their registry, in Dafny

This project models the bookkeeping of `expert.py`. A *language expert* is a
named prompting persona. It holds a system message, an optional description,
an optional example input and output, and a `model_params` dictionary of
generation parameters, which it hands to a remote chat client. The *manager*
is a registry of experts. It maps each expert's name to the expert's
serialized record and may be bound to a backing JSON file.

What is modelled, and how:

- **Python values** (`pyvalues.dfy`). Attribute and parameter values are
  `Value = Null | Str | Int | Float | Bool`. `PyStr` is Python's `str()`,
  which the f-string in `get_content` applies to each field. A float is
  carried by its `repr` text (`Float("0.5")`). The code never computes with
  floats; it only stores them and passes them on.
- **The expert** (`experts.dfy`). `LanguageExpert` is a class with the
  source's attributes. `model_params` is a heap object (`ParamDict`), just as
  the Python dict is. `serialize` returns a record that shares that object.
  `get_expert` passes the object back into a new expert, and `change_param`
  mutates it in place. So the Python aliasing is part of the model: editing a
  generation key of an expert after `add_expert` also changes the registry's
  entry, and every other expert rebuilt from that entry.
  `Record<ParamDict>` is the live record. `Record<Params>` is its value, as
  `json.dump` writes it.
- **The chat client** is `Client(params)`, the parameters it was built from
  (`ChatOpenAI(**model_params)`). The remote calls are function parameters:
  `Completion` for `self.chat(...)` and `BatchCompletion` for
  `self.chat.generate(...)`. Nothing is assumed about them, except in the
  echo scenario.
- **change_param** is specified by the pure function
  `ChangeAttributes`, and the method `ChangeParam` is proved against it. A
  recognised generation key changes only that entry of `model_params`. One of
  the five serialized names changes only that top-level field. `chat` is
  rebuilt anyway, so writing it changes nothing. Any other name becomes an
  extra attribute. The rebuild then raises `TypeError` in two cases. The
  first is `model_params` replaced by a scalar, because `**` needs a mapping.
  The second is an attribute named `regen_chat`, which hides the rebuilding
  method behind a value that cannot be called. From then on every
  `change_param` call stores its value and raises.
- **The registry** (`registry.dfy`). `Manager` holds `experts`, its optional
  `fname`, and a ghost `saved` map. `saved` gives the table this registry
  last wrote to, or read from, each path. `AddExpert` rewrites the
  bound file; `DeleteExpert` does not. That asymmetry is stated in their
  contracts and shown by `AddThenDelete`.
- Exceptions are values: `KeyError` for an unknown name, `IndexError` for a
  generation with no choice, `TypeError` for the two cases above.

Two behaviours of the code that the model keeps:

- An expert is not an immutable value. The code shares `model_params`
  between an expert, its serialized record and the registry, and
  `change_param` mutates it in place. The model shares it too.
- The code never checks an expert's name; an empty name is accepted. The
  model accepts it as well.

## Model

| member | source | states |
|---|---|---|
| `PyValues.PyStr` | expert.py:35 | `str()` of a string is the string itself, of None "None", of a bool "True" or "False"; of a non-negative int a canonical decimal numeral denoting it; of a negative int a minus sign followed by the numeral of its absolute value |
| `PyValues.NatToDecimalRoundTrip` | expert.py:35 | `str()` of a non-negative int is a canonical decimal numeral (digits only, no leading zero) that denotes the int |
| `PyValues.IntToDecimalInjective` | expert.py:35 | two ints render alike under `str()` exactly when they are equal |
| `Experts.DefaultParamsHaveModelKeys` | expert.py:17-18 | the defaults carry exactly the six recognised generation keys: model_name "gpt-4", temperature 0.0, frequency_penalty 1.0, presence_penalty 0.5, n 1, max_tokens 512 |
| `Experts.LanguageExpert.constructor` | expert.py:11-20 | the five attributes are as given; without `model_params` the expert gets a fresh dictionary holding the six defaults; a given dictionary is kept as the same object, without merging defaults; the client is built from the parameters; no extra attributes |
| `Experts.LanguageExpert.Serialize` | expert.py:22-30 | the record holds each of the five top-level attributes under its Python name, and its `model_params` is the expert's own dictionary object |
| `Experts.ContentReadsBack` | expert.py:35 | the content is the system-message label, then `str()` of system_message, the example-input label, `str()` of example_input, the example-output label and `str()` of example_output, each found at the position the lengths before it fix |
| `Experts.LanguageExpert.GetContent` | expert.py:32-37 | a system message whose text is the content rendered from the expert's current system_message, example_input and example_output, and which depends on those three attributes only |
| `Experts.ContentReflectsEdits` | expert.py:32-37 | with two of system_message, example_input and example_output rendering alike, the contents are equal exactly when the third renders alike too, so every edit of a rendered field shows in the content |
| `Experts.ChangeAndContent` | expert.py:68-72 | an update of any name other than the three rendered fields leaves `get_content` unchanged; an update of one of them changes it exactly when the new value renders differently |
| `Experts.ChangeAttributes` | expert.py:68-76 | a recognised generation key sets only that entry of `model_params` and leaves all other entries and all top-level fields unchanged; any other name leaves `model_params` unchanged; a serialized field name sets only that field; `model_params` and `chat` change nothing; any other name is added as an attribute; the call raises TypeError exactly when the name is `model_params` or `regen_chat`, or when `regen_chat` was already stored |
| `Experts.LanguageExpert.ChangeParam` | expert.py:68-76 | the expert's attributes become those `ChangeAttributes` gives, written into the shared dictionary, and the outcome is the one it gives; when the call returns, the client is rebuilt from the new parameters; when it raises, the client is the old one |
| `Experts.LanguageExpert.Generate` | expert.py:39-44 | one call of the expert's current client with the request [current system content, message]; its reply is returned |
| `Experts.SingleRequest` | expert.py:40-41 | the request is two messages: a system message carrying the content, then a human message carrying the message |
| `Experts.BulkRequests` | expert.py:57-59 | exactly one request per message; request i is [system content, messages[i]], the same request `generate` sends for that message |
| `Experts.ExtractTexts` | expert.py:54-55 | succeeds exactly when every generation has a choice; then one text per generation, in order, the text of its first choice; otherwise IndexError |
| `Experts.ExtractTextsAppend` | expert.py:54-55 | extraction over a batch split in two is extraction over each part, concatenated, and fails exactly when one of the parts fails |
| `Experts.LanguageExpert.BulkGenerate` | expert.py:57-63 | the batched call receives the requests of `BulkRequests` and the result is the extraction of its generations: one text per generation, in order, or IndexError exactly when a generation has no choice |
| `Experts.EchoGenerations` | expert.py:60 | a stub transport: one generation per request, in order, each a single choice echoing the request's last message (no choice for an empty request) |
| `Experts.BulkEchoReturnsMessages` | expert.py:57-63 | `bulk_generate`, called with the echoing transport, returns the messages themselves, in order |
| `Registry.Manager.constructor` | expert.py:89-92 | without a file, no file name, an empty table and nothing saved |
| `Registry.Manager.Load` | expert.py:89-94 | with a file, the file name is bound and the table is what was read, which is also what that file holds |
| `Registry.Manager.AddExpert` | expert.py:96-99 | the expert's record is stored under its name, replacing any earlier entry and leaving the others; with a bound file, that file then holds the whole table; otherwise nothing is saved |
| `Registry.Manager.DeleteExpert` | expert.py:101-102 | a present name is removed and only that one; an absent name is a KeyError; the saved files are untouched either way |
| `Registry.Manager.GetExpert` | expert.py:107-108 | a present name gives a new expert whose record equals the stored one (sharing its dictionary), with a client built from its parameters; an absent name is a KeyError |
| `Registry.Manager.Save` | expert.py:110-112 | the file holds the whole current table; the table is unchanged |
| `Registry.AddThenGet` | expert.py:96-108 | after adding an expert, looking it up by name gives an expert with the same record and the same dictionary |
| `Registry.LookupKnownAndUnknown` | expert.py:107-108 | in a registry without a file, after adding "X", "X" is found with that name and "Y" is a KeyError |
| `Registry.AddThenDelete` | expert.py:96-102 | on a file-bound registry, an added expert is in the file; after deleting it, it is gone from memory but still in the file |
| `Registry.EditAfterAdd` | expert.py:97 | a temperature change made on an expert after adding it shows in the registry's entry, while the file written by the add keeps the old temperature |
| `Registry.SharedEditLeavesOtherClientStale` | expert.py:108 | two experts rebuilt from one entry share its dictionary: a change through one is seen in the other's parameters, but not by the other's client |
| `Registry.EditReachesSharingEntries` | expert.py:68-70 | a generation key changed through an expert changes, in the table a later save writes, exactly that key of the entries whose records share the expert's dictionary; every other entry and every other key keep their values |

## Left out

- `Experts.LanguageExpert.ChangeParam`: for the name `model_params`, Python first stores the new value and then raises `TypeError` while rebuilding the client. The model raises the same error but leaves the expert unchanged. A `Value` is never a mapping, so replacing `model_params` with a new dict through `change_param` is not modelled.
- `Experts.LanguageExpert.ChangeParam`: a stored name that shadows one of the class's methods other than `regen_chat` (such as `get_content` or `generate`) is treated like any other extra attribute. In Python it hides that method, so a later call to it raises.
- `Experts.LanguageExpert.ChangeParam`: once `regen_chat` is shadowed, Python keeps a value stored under `chat` in place of the client. The model keeps the old client, because a `Value` is never a client.
- `Experts.LanguageExpert.ChangeParam`: errors the chat library raises when it validates a parameter value are not modelled, because that library is foreign code.
- The chat client, its credentials and its transport errors: a foreign network library. They appear only as `Client(params)` and the uninterpreted `Completion`/`BatchCompletion` functions.
- `log`: writing a timestamped log file after each `generate` and `bulk_generate` is file I/O and wall-clock time. So is the directory creation, and a log failure that aborts the call.
- `gen_from_file` and `get_file_content`: file reading.
- `Registry.Manager.Load`: reading and parsing the JSON file, and the errors that makes possible, are left out. The parsed table is a parameter. The model does not require its dictionaries to be distinct, as `json.load` would make them.
- `Registry.Manager.AddExpert`: the table is keyed by `Value` with structural equality. A Python dict treats `1`, `1.0` and `True` as one key, while the model keeps them as three entries.
- `Registry.Manager.DeleteExpert`: same key equality as `AddExpert`. Deleting `1.0` does not remove an entry stored under `1`.
- `Registry.Manager.GetExpert`: same key equality as `AddExpert`. Looking up `True` does not find an entry stored under `1`.
- `PyValues.PyStr`: Python raises `ValueError` when it converts an int of more than 4300 digits to a string. The model renders every int.
- `Registry.Manager.Save`: JSON encoding is left out (it turns non-string keys into strings), and so are write failures. A file is represented by the table value it holds.
- `Manager.__getitem__`: it calls `create_expert`, which does not exist, so every use fails. It is not modelled.
- `gen_prompt` and `improve`: orchestration of remote calls, built on `ast.literal_eval` of model output and on Python's `str()` of a dict. Both are a foreign evaluator and a repr format.
- `print` diagnostics: console output.
- `LanguageExpert` subclasses `dict`, but the code never uses it as a dict; that is not modelled.
