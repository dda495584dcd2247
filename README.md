# SQL query tool and forecast store, modelled in Dafny

This project models two parts of a small tool server.

1. **The SQL Server query tool** (`QueryTool` module, `query_tool.dfy`).
   It has three operations. Once logging has started, none of them raises:
   - `HealthCheck` turns the outcome of opening a connection into a status string.
   - `GetSchema` folds the rows of a catalog query into a dictionary.
     The dictionary maps each table name to its `{schema, name, type}` column descriptors.
   - `Query` runs a statement inside a transaction.
     It turns every loaded row into a column-name → value dictionary, with `DBNull` replaced by null.
     It commits only after that, and returns the rows as a JSON array.

   Any exception becomes the JSON object `{"error": message}`.
   The database driver is an input. Each driver step is given either as its result or as the message of the exception it raises.
   The steps are: open the connection, begin the transaction, execute, read or load, commit.
   Each operation returns a trace of driver events: `Opened`, `Began`, `Executed(sql)`, `Loaded`, `Committed`, `RolledBack`, `Closed`.
   `RolledBack` and `Closed` stand for the disposal that `using` performs on every exit path.
   JSON is an abstract value (`Json` module, `json.dfy`).
   Numbers keep their exact decimal form. Object members keep the order in which they are written.
   A `Dictionary`'s key order is its insertion order, so the table dictionary is modelled as a `map` plus the sequence of table names in first-seen order.
2. **The forecast web API controller** (`WeatherForecastController` module, `weather_forecast_controller.dfy`).
   The `ForecastStore` class holds the static forecast list as a `seq` field.
   Its methods are:
   - `SeedIfEmpty`, which models the controller constructor;
   - `Get`;
   - `Post`, which appends;
   - `Put`, which replaces one element after a bounds check.

   `DateTime.Now` and `Random.Shared` are parameters.
   Each seeded forecast takes one `Draw`: the time read, a temperature in [-20, 55) and a summary index in [0, 10).

`wrappers.dfy` holds `Option`, `Outcome` (a step with no value), `Result` (a step with a value) and `Distinct`.

The schema fold keys the dictionary by table name only (QueryTool.cs line 98).
Two tables with the same name in different schemas therefore share one list.
The model keeps this behaviour: `SameNameTablesMerge` states it and `SchemaExample` shows it.
Each descriptor still records its schema.

`HealthCheck` returns "Connection is OK" or "Connection failed: <message>".

## Model

| member | source | states |
|---|---|---|
| `QueryTool.HealthCheck` | sql/MCP-SqlServer/Tools/QueryTool.cs:32-47 | The status is "Connection is OK" if and only if the connection opened; a failure status begins with "Connection failed: ". `HealthCheckReadBack` states how the message reads back. |
| `QueryTool.HealthCheckReadBack` | sql/MCP-SqlServer/Tools/QueryTool.cs:32-47 | The status is exactly "Connection is OK" if and only if the connection opened. Otherwise it is "Connection failed: " followed by the exception message, which reads back unchanged. |
| `QueryTool.GetSchema` | sql/MCP-SqlServer/Tools/QueryTool.cs:59-115 | On success the result is the table dictionary folded from the reader's rows, serialized in first-seen key order. If open, begin, execute or a read raises, the result is `{"error": message}` with the first failing step's message. The trace is fixed on every path: nothing when open fails; `[Opened, Closed]` when begin fails; otherwise `[Opened, Began, Executed(CatalogQuery), RolledBack, Closed]`. So the catalog query runs only inside the transaction, there is never a commit, and the connection is closed on every path that opened it. |
| `QueryTool.TableKeys` | sql/MCP-SqlServer/Tools/QueryTool.cs:91-101 | The dictionary's key set is exactly the set of table names in the rows. The key order lists each name once. A name is in the key order if and only if it is a key. |
| `QueryTool.FirstSeenOrder` | sql/MCP-SqlServer/Tools/QueryTool.cs:91-109 | The serialized key order is the order of first appearance: for any two keys, the one listed earlier was first named by an earlier catalog row. |
| `QueryTool.TablesAreFilters` | sql/MCP-SqlServer/Tools/QueryTool.cs:91-107 | Each table's list is exactly the descriptors of the rows naming that table, in reader order: one descriptor per row, appended, never reordered. |
| `QueryTool.SameNameTablesMerge` | sql/MCP-SqlServer/Tools/QueryTool.cs:93-106 | Any two rows with the same table name put their descriptors under the same key, whatever their schemas. |
| `QueryTool.TotalIsRowCount` | sql/MCP-SqlServer/Tools/QueryTool.cs:91-107 | The lists in the dictionary hold as many descriptors, in total, as there were catalog rows. |
| `QueryTool.TableMembersAreArrays` | sql/MCP-SqlServer/Tools/QueryTool.cs:109 | The serialized dictionary has one member per key, in key order. Each member holds the array of that table's `{schema, name, type}` objects. |
| `QueryTool.SchemaIsNotError` | sql/MCP-SqlServer/Tools/QueryTool.cs:109-114 | A successful schema never has the shape of an error object, not even when its only table is named "error". |
| `Json.ErrorObject` | sql/MCP-SqlServer/Tools/QueryTool.cs:164-167 | The failure value is an object with the single string member "error" holding the message. |
| `QueryTool.Query` | sql/MCP-SqlServer/Tools/QueryTool.cs:132-168 | The result is an array if and only if every step passed, commit included. The array has one element per loaded row, in row order, and each element is that row's dictionary. Otherwise the result is `{"error": message}` with the first failing step's message. The SQL text is executed verbatim. A commit happens if and only if all rows were materialized, and it comes after the load. The trace is fixed on every path: nothing when open fails; `[Opened, Closed]` when begin fails; `[Opened, Began, Executed(sql), RolledBack, Closed]` when execute or load fails; `[Opened, Began, Executed(sql), Loaded, RolledBack, Closed]` when commit fails; `[Opened, Began, Executed(sql), Loaded, Committed, Closed]` on success. |
| `QueryTool.RowMapAt` | sql/MCP-SqlServer/Tools/QueryTool.cs:148-157 | A row's dictionary has exactly the column names as keys. Each key holds its own column's cell, with `DBNull` replaced by null. |
| `QueryTool.RowMapNulls` | sql/MCP-SqlServer/Tools/QueryTool.cs:151-155 | A `DBNull` cell maps to null, and every other cell value is passed through unchanged. |
| `QueryTool.CellRoundTrip` | sql/MCP-SqlServer/Tools/QueryTool.cs:154-161 | A cell serializes to JSON null exactly when it is `DBNull`. A reader that knows the column kind decodes every cell back to the same cell. |
| `QueryTool.RecordRoundTrip` | sql/MCP-SqlServer/Tools/QueryTool.cs:154-161 | A serialized row has the column names as keys, in column order. A value is JSON null exactly when the cell was `DBNull`. Given the column kinds, every cell decodes back to itself: integers and decimals without loss, and strings stay distinct from null. |
| `WeatherForecastController.SeedForecasts` | stdio/Mcp.WeatherForecast.WebApi/Controllers/WeatherForecastController.cs:10-32 | Seeding produces exactly 5 forecasts. Each has a temperature in [-20, 55) and a summary from the 10 `Summaries`. Forecast i is dated i+1 days after the time read for it. |
| `WeatherForecastController.ForecastStore.constructor` | stdio/Mcp.WeatherForecast.WebApi/Controllers/WeatherForecastController.cs:16 | The shared list starts empty. |
| `WeatherForecastController.ForecastStore.SeedIfEmpty` | stdio/Mcp.WeatherForecast.WebApi/Controllers/WeatherForecastController.cs:25-33 | An empty list becomes the 5 seeded forecasts. A non-empty list is left unchanged, and then no clock or random values are needed. Afterwards the list is non-empty. |
| `WeatherForecastController.ForecastStore.Get` | stdio/Mcp.WeatherForecast.WebApi/Controllers/WeatherForecastController.cs:37-40 | Returns the current list and changes nothing. |
| `WeatherForecastController.ForecastStore.Post` | stdio/Mcp.WeatherForecast.WebApi/Controllers/WeatherForecastController.cs:43-47 | The new forecast is appended: the count grows by one, earlier entries are unchanged, and the created item is returned. |
| `WeatherForecastController.ForecastStore.Put` | stdio/Mcp.WeatherForecast.WebApi/Controllers/WeatherForecastController.cs:50-59 | An index below 0 or at or past the count gives NotFound("No forecast at index <index>") and leaves the list unchanged. Otherwise exactly that element is replaced: the length and every other element are unchanged, and the updated item is returned. |

`QueryExample`, `SchemaExample` and `RequestSequence` are client methods. They derive concrete results from the contracts alone: a row with a NULL cell, a query that raises, two same-named tables in different schemas, and a sequence of store requests.

## Left out

- The SQL driver itself is not modelled. `SqlConnection`, `SqlCommand`, `ExecuteReader`, `DataTable.Load` and `BeginTransaction` are foreign library calls. Each becomes a given outcome, and the rows become given sequences.
- `QueryTool.HealthCheck` returns only the status string. The disposal of its connection by `using` is not traced, unlike in `GetSchema` and `Query`.
- `QueryTool.CatalogQuery` is the catalog SQL with its line breaks and indentation collapsed to single spaces. So `Executed(CatalogQuery)` names the statement but is not its exact text.
- The catalog query's meaning is not modelled: the join on schema and name, and the restriction to base tables. The database evaluates it. The model receives its rows.
- Read-committed isolation and concurrent callers are not modelled. The database provides isolation, and operations are taken one at a time.
- `QueryTool.GetSchema`: `reader.GetString` raising on a NULL catalog cell is folded into the reader's end failure. The model does not attribute it to the row where it happened. The result is the same error object.
- `QueryTool.Query` requires a well-formed `DataTable`: unique column names and one cell per column in each row. `DataTable` itself guarantees this. Its renaming of duplicate or case-colliding column names is not modelled.
- Floating-point columns are not modelled, because their decimal form depends on double rounding. Neither is the serializer's exception on NaN or infinity.
- Date/time, unique-identifier and binary values are not encoded by the model. They arrive as the fixed text that the serializer writes for them.
- The exact bytes `JsonSerializer` writes are not modelled: escaping and compact layout. The model produces an abstract JSON value.
- Logging (`Utils/Logger.cs`) is left out, and the model assumes it succeeds. `FileLogger.Log` swallows the exceptions of its own file append. But the logger's static constructor creates the log directory with no `try` around it, and each operation logs before its own `try` (QueryTool.cs lines 34, 61 and 134). So if the log directory cannot be created, `HealthCheck`, `GetSchema` and `Query` all raise a type-initialization exception, on the first call and on every later one. The model has no such path.
- Configuration loading (`Utils/Configuration.cs`) is left out: it is a file read. A missing connection string raises inside each operation's `try`, so it is one of the open failures.
- `WeatherForecastTools.cs` and the two web hosts (`Program.cs`, `AppHost.cs`) are HTTP clients and host wiring, and are not part of this model.
- `TemperatureF` is left out: it uses floating-point division with truncation.
- `WeatherForecastController.ForecastStore.Put`: the NotFound text writes a negative index with an ASCII '-'. The source formats the index with the current culture, and some cultures use another negative sign, such as U+2212. The model assumes a culture whose negative sign is '-'.
- In the forecast model, `DateTime` overflow in `AddDays` is not modelled, and neither is the 32-bit width of `TemperatureC` and `index`. Temperatures and indices are unbounded integers. Dates are tick counts.
- The static forecast list shared by concurrent requests is modelled as one object used sequentially.
