# Task priority and role codes of GanttProject

This project models the executable part of GanttProject's `Task` interface
(`ganttproject/src/net/sourceforge/ganttproject/task/Task.java`): the two nested
enums `Task.Priority` and `Task.Role`, the defaults `DEFAULT_PRIORITY` and
`DEFAULT_ROLE`, and what is derived from them.

Each enum is a closed set of constants, each constant carrying the string code it
is persisted under. Each enum has two total decoders: by ordinal (`getPriority(int)`,
`getRole(int)`) and by persisted code (`fromPersistentValue(String)`). Both are
linear searches over `values()` in declaration order with an early return, and both
fall back to a default when nothing matches.

For `Priority` the ordinal and the code differ: LOWEST is declared first (ordinal 0)
but stored as "3", so the ordinal 3 decodes to HIGH while the code "3" decodes to
LOWEST. The model keeps the two decoders apart and proves that they disagree there.
For `Role` every code is the decimal spelling of the ordinal, and the model proves
that the two decoders then agree on every natural number: the decimal spelling of n
decodes to the same role as the ordinal n.

Layout:

- `Search.dfy`: `Option` and `FirstIndex`, the first-match search over `values()`
  that every decoder runs.
- `Text.dfy`: reference definitions used to state what the derived strings mean.
  These are ASCII lower-casing (`AsciiLower`) and the decimal spelling of a number
  (`DecimalString`, with `ParseDecimal` as its inverse).
- `TaskPriority.dfy`: `Task.Priority` and `DEFAULT_PRIORITY`.
- `TaskRole.dfy`: `Task.Role` and `DEFAULT_ROLE`.

`getLowerString` is modelled as a literal table of the lower-cased constant names.
Its contract states that the table equals the ASCII lower-casing of the constant
names (`Name`, what an enum's `toString()` returns).

## Model

| member | source | states |
|---|---|---|
| `Search.FirstIndex` | ganttproject/src/net/sourceforge/ganttproject/task/Task.java:53-58 | the result is the index of the first value that matches, or None exactly when no value matches |
| `Text.AsciiLower` | ganttproject/src/net/sourceforge/ganttproject/task/Task.java:67 | lower-casing keeps the length, maps every character through `LowerChar`, and leaves no upper-case letter |
| `TaskPriority.Values` | ganttproject/src/net/sourceforge/ganttproject/task/Task.java:39 | `values()` has five entries |
| `TaskPriority.Ordinal` | ganttproject/src/net/sourceforge/ganttproject/task/Task.java:39 | a priority's ordinal is its position in `values()` |
| `TaskPriority.GetPriority` | ganttproject/src/net/sourceforge/ganttproject/task/Task.java:52-59 | for 0 <= i < 5 the result is the value at position i and has ordinal i; for any other i it is DEFAULT_PRIORITY |
| `TaskPriority.FromPersistentValue` | ganttproject/src/net/sourceforge/ganttproject/task/Task.java:82-89 | when some priority is stored under the code, the result is stored under it; when none is, the result is NORMAL |
| `TaskPriority.I18nKey` | ganttproject/src/net/sourceforge/ganttproject/task/Task.java:70-73 | the key is "priority." followed by the lower-cased constant name |
| `TaskPriority.IconPath` | ganttproject/src/net/sourceforge/ganttproject/task/Task.java:75-80 | the path is the lower-cased constant name between "/icons/task_" and ".gif" |
| `TaskPriority.PersistentValue` | ganttproject/src/net/sourceforge/ganttproject/task/Task.java:61-63 | every priority's code, set by its constructor argument at line 39, is one digit from "0" to "4" |
| `TaskPriority.Name` | ganttproject/src/net/sourceforge/ganttproject/task/Task.java:39 | every priority's `toString()` is a non-empty constant name of upper-case letters and underscores |
| `TaskPriority.LowerString` | ganttproject/src/net/sourceforge/ganttproject/task/Task.java:65-68 | the literal lower-string table equals the lower-cased constant name of every priority |
| `TaskPriority.LowerStringInjective` | ganttproject/src/net/sourceforge/ganttproject/task/Task.java:65-68 | distinct priorities have distinct lower strings |
| `TaskPriority.PersistentValueInjective` | ganttproject/src/net/sourceforge/ganttproject/task/Task.java:39 | distinct priorities have distinct persisted codes |
| `TaskPriority.RoundTrip` | ganttproject/src/net/sourceforge/ganttproject/task/Task.java:82-89 | decoding the code of any priority gives that priority back |
| `TaskPriority.DecodeFallback` | ganttproject/src/net/sourceforge/ganttproject/task/Task.java:82-89 | any code other than "0" to "4" decodes to NORMAL, which is DEFAULT_PRIORITY |
| `TaskPriority.DecodeTable` | ganttproject/src/net/sourceforge/ganttproject/task/Task.java:82-89 | the full decoding table: "3" LOWEST, "0" LOW, "2" HIGH, "4" HIGHEST, everything else NORMAL |
| `TaskPriority.OrdinalRoundTrip` | ganttproject/src/net/sourceforge/ganttproject/task/Task.java:52-59 | decoding the ordinal of any priority gives that priority back |
| `TaskPriority.DecodersDiffer` | ganttproject/src/net/sourceforge/ganttproject/task/Task.java:39-89 | the ordinal 3 decodes to HIGH, the code "3" decodes to LOWEST, and LOWEST's code is not its ordinal |
| `TaskPriority.DerivedStringsInjective` | ganttproject/src/net/sourceforge/ganttproject/task/Task.java:70-80 | distinct priorities have distinct i18n keys and distinct icon paths |
| `TaskRole.Values` | ganttproject/src/net/sourceforge/ganttproject/task/Task.java:94-96 | `values()` has eleven entries |
| `TaskRole.Ordinal` | ganttproject/src/net/sourceforge/ganttproject/task/Task.java:94-96 | a role's ordinal is its position in `values()` |
| `TaskRole.OrdinalsInOrder` | ganttproject/src/net/sourceforge/ganttproject/task/Task.java:94-96 | the value at each position of `values()` has that position as its ordinal |
| `TaskRole.GetRole` | ganttproject/src/net/sourceforge/ganttproject/task/Task.java:103-110 | for 0 <= i < 11 the result is the value at position i and has ordinal i; for any other i it is DEFAULT_ROLE |
| `TaskRole.FromPersistentValue` | ganttproject/src/net/sourceforge/ganttproject/task/Task.java:124-131 | when some role is stored under the code, the result is stored under it; when none is, the result is UNDEFINED |
| `TaskRole.NoRoleHasCode` | ganttproject/src/net/sourceforge/ganttproject/task/Task.java:125-130 | a code that no entry of `values()` carries is carried by no role |
| `TaskRole.I18rKey` | ganttproject/src/net/sourceforge/ganttproject/task/Task.java:120-122 | the key is "role." followed by the lower-cased constant name |
| `TaskRole.PersistentValue` | ganttproject/src/net/sourceforge/ganttproject/task/Task.java:94-96 | every role's code is the decimal spelling of its ordinal, "0" for UNDEFINED up to "10" for NO_SPECIFIC_ROLE |
| `TaskRole.Name` | ganttproject/src/net/sourceforge/ganttproject/task/Task.java:94-96 | every role's `toString()` is a non-empty constant name of upper-case letters and underscores |
| `TaskRole.LowerString` | ganttproject/src/net/sourceforge/ganttproject/task/Task.java:116-118 | the literal lower-string table equals the lower-cased constant name of every role |
| `TaskRole.LowerStringInjective` | ganttproject/src/net/sourceforge/ganttproject/task/Task.java:116-118 | distinct roles have distinct lower strings |
| `TaskRole.I18rKeyInjective` | ganttproject/src/net/sourceforge/ganttproject/task/Task.java:120-122 | distinct roles have distinct i18n keys |
| `TaskRole.CodeIsDecimalOrdinal` | ganttproject/src/net/sourceforge/ganttproject/task/Task.java:94-96 | every role's persisted code is the decimal spelling of its ordinal |
| `TaskRole.PersistentValueInjective` | ganttproject/src/net/sourceforge/ganttproject/task/Task.java:94-96 | distinct roles have distinct persisted codes |
| `TaskRole.RoundTrip` | ganttproject/src/net/sourceforge/ganttproject/task/Task.java:124-131 | decoding the code of any role gives that role back |
| `TaskRole.DecodeFallback` | ganttproject/src/net/sourceforge/ganttproject/task/Task.java:124-131 | any code other than "0" to "10" decodes to UNDEFINED, which is DEFAULT_ROLE |
| `TaskRole.OrdinalRoundTrip` | ganttproject/src/net/sourceforge/ganttproject/task/Task.java:103-110 | decoding the ordinal of any role gives that role back |
| `TaskRole.DecodersAgree` | ganttproject/src/net/sourceforge/ganttproject/task/Task.java:103-131 | for every natural number i the decimal spelling of i decodes to GetRole(i) (both are UNDEFINED from 11 on), and GetRole(i) survives storing and loading for every integer i |

## Left out

- The abstract members of `Task` (Task.java:138-228): mutators, accessors, dependency slices, `move`, `delete`, `unpluggedClone`, critical times and third-date constraints. They have no bodies in this file, so there is no behaviour to model.
- `GanttCalendar`, `TimeDuration`, `TaskActivity`, `TaskDependencySlice`, `TaskManager`, `Document`, `ShapePaint` and `java.awt.Color`: these types are not part of this model.
- `getLowerString` uses Java's `toLowerCase()` with the default locale. The model lower-cases ASCII letters only, which is what most locales do to these names. A Turkish (or Azerbaijani) locale would instead turn the `I` in HIGH, HIGHEST, UNDEFINED, DOC_WRITER, GRAPHIC_DESIGNER, WEB_DESIGNER and NO_SPECIFIC_ROLE into a dotless `ı`, so that the default role's key would be "role.undefıned".
- `fromPersistentValue(null)` falls through to the default in Java, because `equals(null)` is false. Dafny strings cannot be null, so this case does not arise in the model.
- `getPriority(int)` and `getRole(int)` take a 32-bit `int`. The model takes an unbounded integer. Only 0..4 and 0..10 match, so width does not change any result.
