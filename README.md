# OpenRubyRMK message model and map registry in Dafny

This project models two sequential parts of OpenRubyRMK.

**The protocol's message model** (`Common`, common.dfy). It covers `Request`, `Response` and `Notification`, the actions a `Command` carries between Karfunkel and its clients. Each action keeps a string-to-string parameter table and a table of defaults for optional parameters. A read takes the explicit value first, then the default, and otherwise raises `UnknownParameter`. A write coerces the key and the value with `to_s`, so `:foo` and `"foo"` reach the same entry and `33` is stored as `"33"`. Each kind has its own `eql?`:
- requests and notifications compare by id and type, duck-typed on `other.id` and `other.type`;
- responses compare by linked request (using `Request#==`, nil matching only nil), id and status.

A request records the responses that answer it. It is `running?` until an `ok` or `finished` response arrives, and after that nothing more is recorded. The exceptions of errors.rb form the `Exception` datatype. `MalformedCommand`, `AuthenticationError` and `UnknownParameter` are its OpenRubyRMKError kinds (`IsOpenRubyRMKError`); `Core` wraps the Ruby built-in exceptions the code lets escape. `UnknownParameter` records the parameter name and the offending action in the field that matches the action's kind. Any other object raises `TypeError`. `Response#mapped?` is the predicate `Response.Mapped` (a linked request exists).

**The editor's map registry** (`Maps`, maps.dfy). The class-level `@maps` list becomes an explicit `Registry` object. It provides:
- smallest-free-id allocation;
- id lookup, where 0 means "no parent";
- `Map.new` with its two guard checks;
- parent and children links and the ancestor chain (`parent_ids`);
- a name that falls back to the id;
- the width x height x depth tile table with Ruby's array indexing.

`Ruby` (ruby.dfy) holds the bits of Ruby semantics both parts rely on:
- `to_s` of strings, symbols, integers and nil, with `Integer#to_s` proved invertible;
- the built-in exceptions;
- `Array#[]` and `Array#[]=`: negative indices, nil for a missing slot, and growth when storing past the end.

`Scenarios` (scenarios.dfy) replays test/test_response.rb as client code. It adds illustrations of its own, not replays of repository tests: one request's processing/ok/late-finished sequence, a notification before and after it gets a default table, a map hierarchy, and a child created under a half-built map. Every assertion there follows from the model's contracts and definitions.

The model follows the code in these details:
- `Response` equality compares the linked requests with `Request#==` (same id and type).
- A `Notification` has no default table until one is assigned: the constructor never sets `@default_parameter_values`. Until then, `add_default_value` and a read of a missing key raise `NoMethodError`.
- A response status is any string (response.rb:15-17).
- `eql?` answers `nil` for an object without `id`/`type`; the model answers `false`.
- `Map.new` appends the new map to the registry twice (lines 173 and 181). The model keeps both entries.
- `Array.new` raises for a negative size only when it actually reaches that size. When it raises, the map has already been registered once (line 173), so the registry keeps a half-built map with that id and no child list. A map later created with it as parent fails at line 178 with NoMethodError (`<<` on nil), after being registered once itself.

## Model

| member | source | states |
|---|---|---|
| `Ruby.ToS` | lib/open_ruby_rmk/common/request.rb:164-166 | `to_s` coercion: a string is itself, a symbol its name, an integer `Integer#to_s` (which parses back to the integer), nil "" |
| `Ruby.SymbolAndStringAgree` | lib/open_ruby_rmk/common/request.rb:133-134 | a symbol key and the string key of the same name coerce to the same key |
| `Ruby.IntToS` | OpenRubyRMK/lib/open_ruby_rmk/map.rb:232 | `Integer#to_s` is never empty and starts with '-' exactly for negative numbers |
| `Ruby.NatToSRoundTrip` | OpenRubyRMK/lib/open_ruby_rmk/map.rb:232 | parsing the decimal digits of n gives back n (induction on the digits) |
| `Ruby.IntToSRoundTrip` | OpenRubyRMK/lib/open_ruby_rmk/map.rb:232 | `ParseDecimal(IntToS(i)) == Some(i)` for every integer |
| `Ruby.IntToSInjective` | OpenRubyRMK/lib/open_ruby_rmk/map.rb:232 | two ids have the same decimal form iff they are equal, so default names tell maps apart |
| `Ruby.Fetch` | OpenRubyRMK/lib/open_ruby_rmk/map.rb:218-220 | `Array#[]` yields nil outside `-length..length-1` and counts negative indices from the end |
| `Ruby.Store` | OpenRubyRMK/lib/open_ruby_rmk/map.rb:226-228 | `Array#[]=` raises IndexError below `-length`, writes the addressed slot, pads with nils when past the end and keeps every other slot |
| `Ruby.FetchAfterStore` | OpenRubyRMK/lib/open_ruby_rmk/map.rb:226-228 | reading the index just stored yields the stored value, for negative, in-range and past-the-end indices |
| `Ruby.FetchOtherAfterStore` | OpenRubyRMK/lib/open_ruby_rmk/map.rb:226-228 | a store leaves the reading at every other non-negative index unchanged |
| `Common.Lookup` | lib/open_ruby_rmk/common/request.rb:133-142 | the two-level read equals a read of the defaults overridden by the explicit parameters |
| `Common.UnknownParameterFor` | lib/open_ruby_rmk/common/errors.rb:51-61 | `UnknownParameter.new` as written: it records the name and exactly one action field, matching the action's kind. nil and other objects raise TypeError. An unmapped response raises NoMethodError from the default message's `inspect` |
| `Common.UnknownParameterIntended` | lib/open_ruby_rmk/common/errors.rb:51-61 | corrected construction: every request, response or notification yields an UnknownParameter blaming it with exactly one field set; it agrees with the as-written one everywhere else |
| `Common.UnknownParameterForUnmappedResponse` | lib/open_ruby_rmk/common/response.rb:189-191 | for a response without request, the as-written construction raises NoMethodError("type") while the intended one yields UnknownParameter |
| `Common.IsOpenRubyRMKError` | lib/open_ruby_rmk/common/errors.rb:7-22 | `rescue OpenRubyRMKError` catches exactly MalformedCommand, AuthenticationError and UnknownParameter, and none of Ruby's built-in exceptions |
| `Common.RescueCatchesReadErrors` | lib/open_ruby_rmk/common/errors.rb:20-22 | every failing read of a request, of a response read as intended and of a notification with a default table raises an OpenRubyRMKError; the as-written read of an unmapped response raises one that is not |
| `Common.MappedExactlyWhenReadsAgree` | lib/open_ruby_rmk/common/response.rb:169-171 | `mapped?` holds exactly when every as-written read of the response agrees with the intended one; an unmapped response always has a key whose read raises NoMethodError |
| `Common.NoneTerminal` | lib/open_ruby_rmk/common/request.rb:193-195 | `none?` over the responses holds iff no response has status ok or finished |
| `Common.RequestEqualityIsEquivalence` | lib/open_ruby_rmk/common/request.rb:177-181 | request equality is reflexive, symmetric and transitive |
| `Common.RequestNotificationEqualitySymmetric` | lib/open_ruby_rmk/common/notification.rb:147-151 | a request and a notification are equal in both directions exactly when ids and types match |
| `Common.ResponseEqualityLaws` | lib/open_ruby_rmk/common/response.rb:180-185 | response equality is reflexive and symmetric, and a mapped response never equals an unmapped one |
| `Common.Request.constructor` | lib/open_ruby_rmk/common/request.rb:95-101 | the type is stored as its string form; parameters, defaults and responses start empty |
| `Common.Request.AddDefaultValue` | lib/open_ruby_rmk/common/request.rb:111-113 | stores name to value as strings ("" by default); an unset parameter then reads as the default, a set one keeps its value |
| `Common.Request.Get` | lib/open_ruby_rmk/common/request.rb:133-142 | an explicit value wins, else the default, else UnknownParameter naming this request and the key |
| `Common.Request.Set` | lib/open_ruby_rmk/common/request.rb:164-166 | afterwards the key reads back the value's string form under its symbol and string spellings; every other key reads as before |
| `Common.Request.Eql` | lib/open_ruby_rmk/common/request.rb:177-181 | equal iff the other object answers to `id` and `type` with this request's id and type; parameters and responses play no part |
| `Common.Request.Running` | lib/open_ruby_rmk/common/request.rb:193-195 | running iff no recorded response has status ok or finished; a fresh request is running |
| `Common.Request.ReceiveResponse` | lib/open_ruby_rmk/common/request.rb:14-22 | a response answering a running request is appended; once ok/finished has arrived nothing more is added; running afterwards iff it was running and the new status is not terminal |
| `Common.Response.constructor` | lib/open_ruby_rmk/common/response.rb:94-100 | the status is stored as its string form (`:processing` becomes "processing"); the request link is kept; parameter tables start empty |
| `Common.Response.AddDefaultValue` | lib/open_ruby_rmk/common/response.rb:110-112 | stores name to value as strings; an unset parameter then reads as the default |
| `Common.Response.GetAsWritten` | lib/open_ruby_rmk/common/response.rb:132-141 | as written: agrees with the intended read except for a missing key on an unmapped response, where it raises NoMethodError |
| `Common.Response.Get` | lib/open_ruby_rmk/common/response.rb:132-141 | the corrected read of the Findings table (`GetAsWritten` is the read as written): an explicit value wins, else the default, else UnknownParameter naming this response and the key |
| `Common.Response.Set` | lib/open_ruby_rmk/common/response.rb:162-164 | set-then-get returns the value's string form under either key spelling; every other key reads as before |
| `Common.Response.Eql` | lib/open_ruby_rmk/common/response.rb:180-185 | nil and objects without `id` are unequal; other non-responses raise NoMethodError (`request`); two responses are equal iff same request (nil only with nil), id and status |
| `Common.Notification.constructor` | lib/open_ruby_rmk/common/notification.rb:76-80 | the type is stored as its string form; parameters start empty and there is no default table |
| `Common.Notification.SetDefaultParameterValues` | lib/open_ruby_rmk/common/notification.rb:66 | the accessor installs a default table |
| `Common.Notification.AddDefaultValue` | lib/open_ruby_rmk/common/notification.rb:90-92 | raises NoMethodError while no default table exists; otherwise stores name to value as strings and an unset parameter reads as the default |
| `Common.Notification.Get` | lib/open_ruby_rmk/common/notification.rb:113-122 | an explicit value wins; without a default table a missing key raises NoMethodError; else the default or UnknownParameter naming this notification |
| `Common.Notification.Set` | lib/open_ruby_rmk/common/notification.rb:141-143 | set-then-get returns the value's string form under either key spelling; every other key reads as before |
| `Common.Notification.Eql` | lib/open_ruby_rmk/common/notification.rb:147-151 | equal iff the other object answers to `type` and `id` with this notification's type and id |
| `Maps.BlankTable` | OpenRubyRMK/lib/open_ruby_rmk/map.rb:176 | a width x height x depth table whose every cell is `[0, 0]` |
| `Maps.Find` | OpenRubyRMK/lib/open_ruby_rmk/map.rb:158 | `find` yields the first registered map with the id, and nothing iff no map has it |
| `Maps.Map.constructor` | OpenRubyRMK/lib/open_ruby_rmk/map.rb:172-179 | the object `initialize` fills in: id, name, mapset, table and parent set, no child list yet (`@children_ids` nil until line 179), and its ancestor chain extends its parent's |
| `Maps.Map.AncestorLinks` | OpenRubyRMK/lib/open_ruby_rmk/map.rb:184-188 | in the ancestor chain each entry is the parent of the next and the first has no parent |
| `Maps.Map.ParentIds` | OpenRubyRMK/lib/open_ruby_rmk/map.rb:189-198 | the walk up the parent links returns the ancestor ids top-level first, the direct parent last, and nothing for a map without parent |
| `Maps.Map.Get` | OpenRubyRMK/lib/open_ruby_rmk/map.rb:218-220 | an x or y outside `-length..length-1` raises NoMethodError; otherwise the cell at the slots Ruby addresses, negative indices counting from the end (nil outside the column) |
| `Maps.Map.Set` | OpenRubyRMK/lib/open_ruby_rmk/map.rb:226-228 | the new table is the old one with only the addressed column replaced by `Array#[]=`'s result; afterwards the cell reads the tile and every other cell reads as before; NoMethodError for x or y outside the table, IndexError for z below minus the column length, and the table is then unchanged |
| `Maps.Map.Name` | OpenRubyRMK/lib/open_ruby_rmk/map.rb:231-233 | never empty: the stored name, or `Integer#to_s` of the id (which parses back to the id) when the stored name is empty |
| `Maps.Map.SetName` | OpenRubyRMK/lib/open_ruby_rmk/map.rb:236-238 | stores the string form; the name then reads it back, or the id when it is empty |
| `Maps.Registry.constructor` | OpenRubyRMK/lib/open_ruby_rmk/map.rb:68 | the registry starts empty |
| `Maps.Registry.UsedIds` | OpenRubyRMK/lib/open_ruby_rmk/map.rb:79-81 | one id per registry entry, in registration order |
| `Maps.Registry.IdInUse` | OpenRubyRMK/lib/open_ruby_rmk/map.rb:89-91 | true iff some registered map has the id |
| `Maps.Registry.FromId` | OpenRubyRMK/lib/open_ruby_rmk/map.rb:156-161 | nil for 0; a registered map with that id when in use; otherwise ArgumentError with the source's message |
| `Maps.Registry.NextFreeId` | OpenRubyRMK/lib/open_ruby_rmk/map.rb:71-76 | the smallest id from 1 upwards that no registered map uses |
| `Maps.Registry.NewMap` | OpenRubyRMK/lib/open_ruby_rmk/map.rb:169-182 | ArgumentError without touching the registry for a missing nonzero parent or a used id. A negative size leaves one half-built entry with the given name and mapset and without child list. A parent without child list (a half-built map) gives NoMethodError after one registration of the new map, whose name, mapset, table and parent are set. Otherwise the registry gains the new map twice, with an empty child list, a blank table and the given parent, whose child ids gain the new id; the registry invariant is kept |

## Left out

- The `Transformer` codec, `Command`, the XML wire format, the hello rule and the waiting-request table. Their source is not part of this model. Only their documented effect on `Request#responses` and `running?` is modelled (`Request.ReceiveResponse`).
- `Map.load`, `Map#save`, `maps_dir` and the file deletion in `Map.delete`: Marshal and filesystem I/O.
- `Map.delete` and `Map#delete!`. Line 135 calls `children_ids` on the registry Array, so every call raises NoMethodError before anything is deleted. The recursive deletion it describes does not exist in the code.
- `Maps.Map.Name`: the nil branch of `name` is not modelled, because the model's name is always a string: `name.to_str` on a non-string is left out (next line).
- `Maps.Registry.NewMap`: `name.to_str` on a non-string (for nil a NoMethodError after the first registration, leaving a registered map whose `@name` is nil and whose `name` is its id) is not modelled; the name is a string. The half-built map keeps an empty table where Ruby leaves it nil; every read or write of that table raises the same NoMethodError either way.
- `Maps.Map.Set`: the tile is modelled as a pair; `to_ary` on other objects is not modelled. The arrays returned by `map[x, y, z]` are values, so aliasing them is not modelled.
- Messages of `UnknownParameter` and `TypeError` and the `inspect` methods: string formatting only. The one effect of `inspect` that matters, the NoMethodError for a response without request, is modelled.
- Plain `parameters=` and `default_parameter_values=` on requests and responses, and `mapset=` on maps: accessor assignments with no logic. Only the notification's `default_parameter_values=` is modelled, because it is the only way to give a notification defaults.
- Ids and other duck-typed arguments are modelled as integers. Keys and values are strings, symbols, integers or nil (`Ruby.Value`). `eql?` on an arbitrary object is described by the `id` and `type` it answers to (`Common.Obj`).
- `Common.Request.ReceiveResponse`: requires the response to answer this request, as the codec only links it then.
- GUI windows, plugin request handlers and project persistence tests: user interface, event-loop timers and file formats outside this core.

## Findings

| source | as written | input that shows it | evidently intended | confidence | as-written member | corrected member |
|---|---|---|---|---|---|---|
| lib/open_ruby_rmk/common/response.rb:190 | `resp[key]` for a missing key without default calls `UnknownParameter.new(self, key)`. Its default message argument calls `inspect`, which reads `request.type` on nil, so it raises NoMethodError | `Response.new(3, "error", nil)["reason"]` | raise UnknownParameter naming the response and "reason", as for every other action | not executed; high: default arguments are evaluated before the body, and nil has no `type` in Ruby 1.9 | `Common.Response.GetAsWritten` | `Common.Response.Get` |
