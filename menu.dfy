/** The parts of the console menu that decide something: turning the 1-based
    number the user types into a registry position, reading a yes/no answer,
    and the five sample animals loaded at start-up. Prompting and reading
    lines are not modelled: the parsed input arrives as a parameter. */
module Menu {
  import opened Wrappers
  import opened Text
  import opened Animals
  import opened Registry
  import opened Zoo

  const InvalidIndex := "Некорректный индекс. Должен быть положительным числом."

  /** The zero-based position for a typed number: `None` stands for a line
      that did not parse as an integer, and numbers below one are refused. */
  function MenuPosition(input: Option<int>): (r: Option<nat>)
    ensures r.Some? <==> input.Some? && input.value >= 1
    ensures r.Some? ==> r.value + 1 == input.value
  {
    match input
    case Some(k) => if k >= 1 then Some(k - 1) else None
    case None => None
  }

  /** Menu choice 2: a refused number gets the invalid-index message without
      the registry being consulted; any other number is looked up one lower. */
  method FindByMenuNumber(m: AnimalManager, input: Option<int>, showReal: real -> string)
    returns (line: string)
    ensures input.None? || input.value < 1 ==> line == InvalidIndex
    ensures input.Some? && 1 <= input.value <= |m.animals| ==>
              line == Info(m.animals[input.value - 1], showReal)
    ensures input.Some? && input.value > |m.animals| ==> line == IndexNotFound
  {
    match MenuPosition(input)
    case Some(p) =>
      line := m.DisplayAnimalByIndex(p, showReal);
    case None =>
      line := InvalidIndex;
  }

  /** Typing back the number an entry of the listing shows selects that
      entry's animal. */
  lemma ListedNumberSelectsEntry(s: seq<Animal>, i: nat, describe: Animal -> string)
    requires i < |s|
    ensures var lines, n := Listing(s, describe), IntToString(i + 1);
      lines[i + 1] == EntryLine(i, s[i], describe)
      && lines[i + 1][..|n|] == n
      && MenuPosition(Some(SignedValue(n))) == Some(i)
      && At(s, i) == Some(s[i])
  {
    ListingShape(s, describe);
    EntryNumber(i, s[i], describe);
  }

  /** The folded form of `c` is 'д' only for 'д' and 'Д'. */
  lemma LowerIsDe(c: char)
    requires LowerChar(c) == 'д'
    ensures c == 'д' || c == 'Д'
  {
  }

  /** The folded form of `c` is 'а' only for 'а' and 'А'. */
  lemma LowerIsA(c: char)
    requires LowerChar(c) == 'а'
    ensures c == 'а' || c == 'А'
  {
  }

  /** A yes/no answer is yes when the whole line, lower-cased, is "да". */
  function ParseYesNo(answer: string): (yes: bool)
    ensures yes <==> |answer| == 2 && (answer[0] == 'д' || answer[0] == 'Д')
                                     && (answer[1] == 'а' || answer[1] == 'А')
  {
    var folded := Lower(answer);
    if folded == "да" then
      LowerIsDe(answer[0]);
      LowerIsA(answer[1]);
      true
    else
      false
  }

  /** The five animals the program loads before showing the menu. */
  function Samples(): seq<Animal> {
    [ Mammal("Барсик", 5, "город", "хищник", 4.5, "полосатый", true),
      Bird("Орёл", 3, "горы", "хищник", 6.2, "коричневый", 2.1),
      Fish("Форель", 2, "река", "хищник", 1.8, "серебристый", "пресная"),
      Reptile("Кобра", 4, "пустыня", "хищник", 3.0, "коричневый", true),
      Amphibian("Лягушка", 1, "болото", "всеядное", 0.1, "зелёная", "высокая") ]
  }

  /** Adds the samples in order, one AddAnimal call each. */
  method AddSamples(m: AnimalManager)
    modifies m
    ensures m.animals == old(m.animals) + Samples()
  {
    var s := Samples();
    var message := m.AddAnimal(s[0]);
    message := m.AddAnimal(s[1]);
    message := m.AddAnimal(s[2]);
    message := m.AddAnimal(s[3]);
    message := m.AddAnimal(s[4]);
  }

  /** On the samples, a search in capitals finds the first sample. */
  lemma SampleLookupIgnoresCase()
    ensures FindIndex(Samples(), "БАРСИК") == Some(0)
  {
    var s := Samples();
    assert Lower(s[0].name) == "барсик";
    assert Lower("БАРСИК") == "барсик";
    FindIndexIff(s, "БАРСИК", 0);
  }
}
