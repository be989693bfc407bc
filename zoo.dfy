/** The animal manager: one explicitly constructed registry object holding the
    animals in insertion order. Each display operation returns the lines it
    would write instead of writing them. */
module Zoo {
  import opened Wrappers
  import opened Text
  import opened Animals
  import opened Registry

  class AnimalManager {
    var animals: seq<Animal>

    /** A manager starts with no animals. */
    constructor ()
      ensures animals == []
    {
      animals := [];
    }

    /** Appends `animal` (no check for a name already present) and returns the
        confirmation message. */
    method AddAnimal(animal: Animal) returns (message: string)
      modifies this
      ensures animals == old(animals) + [animal]
      ensures |animals| == |old(animals)| + 1 && animals[|animals| - 1] == animal
      ensures forall i :: 0 <= i < |old(animals)| ==> animals[i] == old(animals)[i]
      ensures message == AddedPrefix + animal.name + AddedSuffix
    {
      animals := animals + [animal];
      message := AddedPrefix + animal.name + AddedSuffix;
    }

    /** The lines of the full listing, built entry by entry. */
    method DisplayAllAnimals(showReal: real -> string) returns (lines: seq<string>)
      ensures lines == Listing(animals, Describer(showReal))
    {
      var describe := Describer(showReal);
      if |animals| == 0 {
        lines := [NoAnimals];
        return;
      }
      var entries := [];
      for i := 0 to |animals|
        invariant entries == Entries(animals[..i], describe)
      {
        assert animals[..i + 1][..i] == animals[..i];
        entries := entries + [EntryLine(i, animals[i], describe)];
      }
      assert animals[..|animals|] == animals;
      lines := [ListHeader] + entries + [""];
    }

    /** The description of the animal at zero-based position `index`, or the
        not-found message for every position outside the registry. */
    method DisplayAnimalByIndex(index: int, showReal: real -> string) returns (line: string)
      ensures 0 <= index < |animals| ==> line == Info(animals[index], showReal)
      ensures line == IndexNotFound <==> !(0 <= index < |animals|)
    {
      match At(animals, index)
      case Some(a) =>
        line := Info(a, showReal);
        InfoIsNotAMessage(a, showReal);
      case None =>
        line := IndexNotFound;
    }

    /** The description of the first animal whose name equals `name` ignoring
        case, or the not-found message when none does. */
    method DisplayAnimalByName(name: string, showReal: real -> string) returns (line: string)
      ensures forall i :: IsFirstMatch(animals, name, i) ==> line == Info(animals[i], showReal)
      ensures line == NameNotFound <==> NoMatch(animals, name)
    {
      match FindIndex(animals, name)
      case Some(i) =>
        line := Info(animals[i], showReal);
        InfoIsNotAMessage(animals[i], showReal);
        forall j | IsFirstMatch(animals, name, j) ensures j == i {
          FirstMatchUnique(animals, name, i, j);
        }
      case None =>
        line := NameNotFound;
    }
  }
}
