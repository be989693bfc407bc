# Animal registry model

This project models the core of a small console program that keeps a catalog
of zoo animals. The program is one C# file, `ConsoleApp1/Program.cs`. Its core
has three parts:

- **Records.** An abstract `Animal` with six shared fields has five
  categories: mammal, bird, fish, reptile and amphibian. Each category adds one
  field and overrides `GetInfo`. The override returns the shared description
  followed by a category part. Here an animal is one datatype
  (`Animals.Animal`) with a constructor per category. `GetInfo` is the single
  function `Animals.Info`, which matches on the constructor.
- **Registry.** `AnimalManager` keeps a `List<Animal>` in insertion order. It
  can append an animal, list every animal numbered from 1, look one up by
  zero-based position, and find the first animal whose name equals a query
  ignoring case. Here it is the class `Zoo.AnimalManager` with a `seq<Animal>`
  field. The module `Registry` specifies its operations as functions on that
  sequence and proves their properties. The listing functions take the
  description function as a parameter (the virtual `GetInfo` call), so their
  lemmas hold for any description; the manager passes `Animals.Info`. Display operations return the lines
  they would write instead of writing them. The program reaches its manager
  through a lazily created singleton. Here the manager is an ordinary object
  the caller constructs.
- **Menu glue.** The menu turns the 1-based number the user types into a
  position and refuses numbers below one. A yes/no answer counts as yes when
  the whole line, lower-cased, is "да". Five sample animals are loaded at
  start-up. All three live in module `Menu`.

Two helper modules support these. `Wrappers` holds `Option`. `Text` holds
case folding and the decimal rendering of integers used by string
interpolation, with '-' as the minus sign.

Two facts about the program's text shape the model:

- The descriptions use the program's Russian labels, for example
  "Кличка: …, Тип: Млекопитающее, Шерсть: есть".
- A yes/no answer is lower-cased before the comparison (Program.cs:317, 386),
  so "ДА", "Да" and "дА" also mean yes. `Menu.ParseYesNo` states exactly which
  lines are accepted.

## Model

| member | source | states |
|---|---|---|
| `Text.Lower` | ConsoleApp1/Program.cs:176 | folding keeps the length and maps every character through the one-letter fold |
| `Text.LowerIdempotent` | ConsoleApp1/Program.cs:176 | folding an already folded string changes nothing |
| `Text.IntToString` | ConsoleApp1/Program.cs:26 | an interpolated integer is never empty, starts with '-' exactly when negative, and is all digits otherwise |
| `Text.IntRoundTrip` | ConsoleApp1/Program.cs:157 | reading back the rendering of any integer gives that integer |
| `Text.IntToStringInjective` | ConsoleApp1/Program.cs:157 | distinct numbers are rendered as distinct strings, so listing numbers never collide |
| `Animals.Info` | ConsoleApp1/Program.cs:24-114 | the GetInfo of every category: the shared description is a proper prefix; `Animals.InfoShape`, `Animals.TailDeterminesCategory`, `Animals.FurShownIff` and `Animals.VenomShownIff` pin down the rest |
| `Animals.InfoShape` | ConsoleApp1/Program.cs:24-27 | every description starts with "Кличка: " and the name, and after the shared description continues with the category part |
| `Animals.TailDeterminesCategory` | ConsoleApp1/Program.cs:41-114 | the text after the shared description is equal for two animals exactly when they are in the same category and show the same category field |
| `Animals.FurShownIff` | ConsoleApp1/Program.cs:43-44 | a mammal's description ends in "Шерсть: есть" exactly when it has fur |
| `Animals.VenomShownIff` | ConsoleApp1/Program.cs:95-96 | a reptile's description ends in "Ядовитость: ядовитое" exactly when it is venomous |
| `Registry.At` | ConsoleApp1/Program.cs:164-171 | a position gives an animal exactly when 0 <= index < count, and that animal is the one stored there; negatives and positions past the end give none |
| `Registry.AtAppend` | ConsoleApp1/Program.cs:140-142 | after an append, the old count is the new animal's position and every other position answers as before |
| `Registry.FindIndex` | ConsoleApp1/Program.cs:176 | the search returns the smallest position whose name equals the query ignoring case, and returns nothing exactly when no name matches |
| `Registry.FindIndexIff` | ConsoleApp1/Program.cs:176 | the search returns position i exactly when i is the first match |
| `Registry.FindIndexIgnoresCase` | ConsoleApp1/Program.cs:176 | two queries equal ignoring case find the same position |
| `Registry.FindIndexByFold` | ConsoleApp1/Program.cs:176 | the search depends only on the folded query |
| `Registry.FindIndexAppend` | ConsoleApp1/Program.cs:140-142 | after an append, an earlier match still wins; failing that, the new animal is found exactly when it matches |
| `Registry.DuplicateNameKept` | ConsoleApp1/Program.cs:140-142 | adding a name already present keeps both copies; the new one is last, the earlier one is still found first |
| `Registry.Entries` | ConsoleApp1/Program.cs:155-158 | one entry line per animal; `Registry.EntriesAt` proves entry k is number k+1, ". " and the description of animal k |
| `Registry.Listing` | ConsoleApp1/Program.cs:146-160 | the lines DisplayAllAnimals writes: one line for an empty registry, count+2 otherwise; `Registry.ListingShape` pins down each line |
| `Registry.ListingShape` | ConsoleApp1/Program.cs:148-158 | the listing is the placeholder alone exactly when the registry is empty; otherwise a header, then count entries where entry i is number i+1 and ". " and the description of animal i, then a blank line |
| `Registry.EntryNumber` | ConsoleApp1/Program.cs:157 | each entry starts with its number, which reads back as the position plus one |
| `Registry.ListingAppend` | ConsoleApp1/Program.cs:140-158 | adding an animal to a non-empty registry keeps every earlier listing line and adds the new entry, numbered count+1, before the blank line |
| `Registry.InfoIsNotAMessage` | ConsoleApp1/Program.cs:166-183 | a found animal's description never equals either not-found message |
| `Zoo.AnimalManager.constructor` | ConsoleApp1/Program.cs:123-126 | a new manager holds no animals |
| `Zoo.AnimalManager.AddAnimal` | ConsoleApp1/Program.cs:140-144 | the animal is appended with no uniqueness check: the count rises by one, it is last, every earlier animal keeps its position; the confirmation message names it |
| `Zoo.AnimalManager.DisplayAllAnimals` | ConsoleApp1/Program.cs:146-160 | the loop writes exactly the lines of `Registry.Listing`, with each animal described by `Animals.Info` |
| `Zoo.AnimalManager.DisplayAnimalByIndex` | ConsoleApp1/Program.cs:162-172 | inside the range the line is the description of the animal at that position; the line is the not-found message exactly when the position is outside the range |
| `Zoo.AnimalManager.DisplayAnimalByName` | ConsoleApp1/Program.cs:174-185 | the line is the description of the first animal matching ignoring case; it is the not-found message exactly when no animal matches |
| `Menu.MenuPosition` | ConsoleApp1/Program.cs:234-236 | a typed number k gives position k-1 exactly when it parsed and k >= 1 |
| `Menu.FindByMenuNumber` | ConsoleApp1/Program.cs:232-241 | an unparsed number or one below 1 gives the invalid-index message whatever the registry holds; k in 1..count gives animal k-1; a larger k gives the not-found message |
| `Menu.ListedNumberSelectsEntry` | ConsoleApp1/Program.cs:155-158 | typing back the number a listing entry shows selects that entry's animal |
| `Menu.ParseYesNo` | ConsoleApp1/Program.cs:317 | an answer is yes exactly when it is two letters, д or Д followed by а or А; the same reading serves the venom answer at line 386 |
| `Menu.AddSamples` | ConsoleApp1/Program.cs:194-205 | the five samples are appended in their fixed order |
| `Menu.SampleLookupIgnoresCase` | ConsoleApp1/Program.cs:194 | on the samples, searching for "БАРСИК" finds the first sample, named "Барсик" |

## Left out

- Console I/O is not modelled: the menu loop, the prompts, `ReadLine` and `ReadKey`. Display operations return their lines, and the input each one needs arrives as a parameter.
- `int.TryParse` and `double.TryParse` are not modelled, because they depend on the culture. For the index prompt, `None` stands for a failed parse. The default-to-zero fallback for age, weight and wing span is not modelled: records are built from values that have already been parsed.
- The add-animal sub-menu and the five `Add…` prompt sequences are not modelled. They only read fields in a fixed order and call `AddAnimal`, which is modelled. The yes/no reading they use is `Menu.ParseYesNo`.
- Rendering of `double` is not modelled, because `{Weight}` and `{WingSpan}` depend on the culture. Weights and wing spans are `real`, and the caller supplies their rendering as `showReal`. Binary64 rounding, NaN and infinities are not modelled.
- Text.Lower: uses a simple one-to-one fold (Latin A-Z, Cyrillic А-Я and Ѐ-Џ) instead of the full Unicode tables that `OrdinalIgnoreCase` uses. It also ignores culture-specific `ToLower` rules.
- A `null` line at end of input is not modelled. At that point `ToLower` would throw and `Equals` would return false.
- Text.IntToString: the minus sign is fixed to '-', while `{Age}` uses the current culture's minus sign (U+2212 in some cultures). Only negative ages are affected; listing numbers are always positive.
- Integers are unbounded. The 32-bit width of `Age` and of the typed index does not matter here: parsing bounds them, and k-1 cannot overflow for k >= 1.
- The lazy singleton (`AnimalManager.Instance`) is replaced by an explicitly constructed manager.
- Changing a record's fields through its setters is not modelled, because the program never does it.
