# Cucumber DataTable, modelled in Dafny

This project models `cucumber.api.DataTable` from cucumber-jvm. A step
definition receives a Gherkin data table as a `DataTable`. The constructor
copies the cells of each Gherkin row into an unmodifiable list of lists,
`raw`. The table then offers read-only views of that grid:

- the header row (`topCells`)
- the body from a given row (`cells`)
- the cells in row-major order (`flatten`)
- each source row paired with its cells (`diffableRows`)
- equality and hashing that depend on `raw` alone

Files:

- `java_lists.dfy` (module `JavaLists`): the `java.util` behaviour the table
  relies on. It holds the exceptions thrown by `List.get` and
  `ArrayList.subList`, an `Outcome` type (a value returned or an exception
  thrown), and the hash polynomials of `String.hashCode` and `List.hashCode`.
  A string is hashed over its UTF-16 code units, as a Java `String` holds
  them, so a character outside the Basic Multilingual Plane contributes its
  surrogate pair.
- `grid.dfy` (module `Grid`): row-major flattening of a grid (`Concat`),
  the cell count, and lemmas about lengths, splitting and index positions.
- `data_table.dfy` (module `CucumberApi`): the `DataTableRow` and
  `DiffableRow` values, the `TableConverter` collaborator, and the
  `DataTable` class with lemmas about its views.

`DataTable` is a class with `const` fields, matching the Java `final`
fields. `Valid()` states the invariant the constructor sets up: `raw` has
one row per Gherkin row, holding that row's cells. Because the fields are
`const`, nothing can change them later. Every call to `Raw()` therefore
returns the same grid. The rows need not have equal lengths: the source
never checks this, so the model adds no rectangular invariant.

The source throws exceptions where a bound is broken, so the model does not
use preconditions there. `TopCells` and `Cells` return an `Outcome` instead.
`topCells` on an empty table is `get(0)` on an empty list, which throws
`IndexOutOfBoundsException`. `cells(firstRow)` is
`raw.subList(firstRow, raw.size())`. The model follows the JDK
`ArrayList.subList` range check that this call reaches:

- a negative `firstRow` throws `IndexOutOfBoundsException`;
- a `firstRow` past the end throws `IllegalArgumentException`, because the
  from-index is then larger than the to-index.

## Model

| member | source | states |
|---|---|---|
| `CucumberApi.DataTable.constructor` | core/src/main/java/cucumber/api/DataTable.java:55-65 | keeps the given Gherkin rows and converter; `raw` has as many rows as `gherkinRows`, and row `i` of `raw` is exactly the cells of Gherkin row `i`, in order |
| `CucumberApi.DataTable.Raw` | core/src/main/java/cucumber/api/DataTable.java:72-74 | the grid has one row per Gherkin row, and each row is that Gherkin row's cells |
| `CucumberApi.DataTable.TopCells` | core/src/main/java/cucumber/api/DataTable.java:107-109 | returns the cells of the first Gherkin row exactly when the table has a row; otherwise throws IndexOutOfBounds at index 0 |
| `CucumberApi.DataTable.Cells` | core/src/main/java/cucumber/api/DataTable.java:111-113 | returns a value exactly when `0 <= firstRow <= |raw|`; the result has `|raw| - firstRow` rows, and its row `i` is `raw[firstRow + i]`; a negative start throws IndexOutOfBounds, and a start past the end throws IllegalArgument |
| `CucumberApi.CellsBounds` | core/src/main/java/cucumber/api/DataTable.java:111-113 | `cells(0)` is the whole grid and `cells(|raw|)` is empty |
| `CucumberApi.CellsSplit` | core/src/main/java/cucumber/api/DataTable.java:111-113 | the rows before `firstRow` followed by `cells(firstRow)` give back the grid, and the same holds for their flattenings |
| `CucumberApi.HeaderAndBody` | core/src/main/java/cucumber/api/DataTable.java:107-113 | for a non-empty table, the header row followed by `cells(1)` is the whole grid |
| `CucumberApi.DataTable.GetGherkinRows` | core/src/main/java/cucumber/api/DataTable.java:155-157 | returns the Gherkin rows the table was built from, line numbers included; there is one per row of `raw`, and its cells are that row of `raw` |
| `CucumberApi.DataTable.DiffableRows` | core/src/main/java/cucumber/api/DataTable.java:168-175 | returns exactly `|raw|` entries; entry `i` pairs Gherkin row `i` with `raw[i]`, so each entry's converted cells are the cells of its source row |
| `CucumberApi.DataTable.Flatten` | core/src/main/java/cucumber/api/DataTable.java:181-189 | returns the rows concatenated in order; its length is the total number of cells; cell `j` of row `i` sits right after the cells of all rows above row `i` |
| `Grid.ConcatLength` | core/src/main/java/cucumber/api/DataTable.java:181-189 | the flattening is as long as the sum of the row lengths |
| `Grid.ConcatAppend` | core/src/main/java/cucumber/api/DataTable.java:181-189 | flattening two blocks of rows equals flattening each block and joining the results |
| `Grid.ConcatAt` | core/src/main/java/cucumber/api/DataTable.java:181-189 | cell `j` of row `i` is at position `CellCount(rows above i) + j` of the flattening |
| `Grid.ConcatFrom` | core/src/main/java/cucumber/api/DataTable.java:181-189 | every position of the flattening holds some cell `j` of some row `i`, at exactly that offset |
| `CucumberApi.DataTable.Equals` | core/src/main/java/cucumber/api/DataTable.java:192-201 | an object equals the table exactly when it is a DataTable whose `raw` grid is equal; the identity shortcut gives the same answer |
| `CucumberApi.EqualsIsEquivalence` | core/src/main/java/cucumber/api/DataTable.java:192-201 | equality is reflexive, symmetric and transitive |
| `CucumberApi.NotEqualToOthers` | core/src/main/java/cucumber/api/DataTable.java:192-201 | a table never equals an object of another class |
| `CucumberApi.NotEqualToNull` | core/src/main/java/cucumber/api/DataTable.java:192-201 | a table never equals null |
| `CucumberApi.EqualWhenSameCells` | core/src/main/java/cucumber/api/DataTable.java:192-201 | two tables built from rows with the same cells are equal, whatever their converters or the rest of their Gherkin rows (such as line numbers) |
| `CucumberApi.DataTable.HashCode` | core/src/main/java/cucumber/api/DataTable.java:203-206 | the hash of `raw` as `List.hashCode` specifies it: 1 for no rows, otherwise 31 times the hash of the rows before the last, plus the last row's hash |
| `JavaLists.GridHashStep` | core/src/main/java/cucumber/api/DataTable.java:203-206 | the grid hash unfolds one row at a time: 31 times the hash of the leading rows plus the hash of the last row |
| `JavaLists.BmpCharHash` | core/src/main/java/cucumber/api/DataTable.java:203-206 | a character of the Basic Multilingual Plane is one UTF-16 code unit, and a one-character string hashes to that unit, as `String.hashCode` does |
| `JavaLists.SupplementaryCharHash` | core/src/main/java/cucumber/api/DataTable.java:203-206 | every character outside the Basic Multilingual Plane is two code units, a high surrogate (D800-DBFF) then a low surrogate (DC00-DFFF), which decode back to the character; a one-character string hashes over both units, as `String.hashCode` does |
| `CucumberApi.HashCodeConsistent` | core/src/main/java/cucumber/api/DataTable.java:203-206 | equal tables have equal hash codes, because the hash is computed from `raw` alone |

## Left out

- The static `create` factories (DataTable.java:31-47) are not modelled. They build a converter from an XStream instance, the thread's context class loader and a `Locale`.
- `convert`, `asMaps` and `asList` (DataTable.java:76-105) are not modelled. They delegate to `TableConverter`, and `TableConverter` is not part of this model. `TableConverter` appears only as an opaque reference that a table holds.
- `toTable`, `diff(List)` and `diff(DataTable)` (DataTable.java:122-148) are not modelled. They delegate to `TableConverter.toTable` and `TableDiffer.calculateDiffs`, which are not part of this model.
- `toString` (DataTable.java:159-166) is not modelled. It renders the table through gherkin's `PrettyFormatter`.
- `getTableConverter` (DataTable.java:177-179) is not modelled. It returns the opaque collaborator unchanged.
- `DataTableRow` keeps only its cells and line number. Its comments and id are not modelled, and nothing in the table reads them.
- `DiffableRow` is modelled as a plain pair of a row and its cells. Its class is not part of this model.
- Aliasing of the Gherkin row list is not modelled. Java stores the caller's list by reference, so a caller could still change it after construction; the model holds the rows as a sequence value.
- CucumberApi.DataTable.HashCode: the value is the `List.hashCode`/`String.hashCode` polynomial on unbounded integers, so Java's 32-bit wrap-around is not modelled. The polynomial uses only `+` and `*`, so the model's value is congruent to Java's `raw.hashCode()` modulo 2^32; Java's value is that residue read as a signed 32-bit int, and this final truncation is the only difference. Strings are hashed over their UTF-16 code units, a character outside the Basic Multilingual Plane as its surrogate pair; a Java string holding an unpaired surrogate has no counterpart here, since a Dafny `char` is a Unicode scalar value.
- Null is not modelled for the constructor's input. Java throws `NullPointerException` for a null row list or a row whose cell list is null; the model's rows and cells are sequence values and cannot be null.
