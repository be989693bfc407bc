/** The five animal categories and the description text each one produces.
    An animal is one datatype with a constructor per category. Every
    constructor carries the six shared fields and its one category field.
    `double` values (weight, wing span) are `real` here. Rendering them is
    culture-dependent, so the caller passes the renderer in as `showReal`. */
module Animals {
  import opened Text

  datatype Animal =
    | Mammal(name: string, age: int, habitat: string, dietType: string,
             weight: real, color: string, hasFur: bool)
    | Bird(name: string, age: int, habitat: string, dietType: string,
           weight: real, color: string, wingSpan: real)
    | Fish(name: string, age: int, habitat: string, dietType: string,
           weight: real, color: string, waterType: string)
    | Reptile(name: string, age: int, habitat: string, dietType: string,
              weight: real, color: string, isVenomous: bool)
    | Amphibian(name: string, age: int, habitat: string, dietType: string,
                weight: real, color: string, skinMoisture: string)

  /** The description shared by every category (the base class's GetInfo):
      the name label and name, then the other shared fields. */
  function BaseInfo(a: Animal, showReal: real -> string): string {
    "Кличка: " + a.name + SharedFields(a, showReal)
  }

  function SharedFields(a: Animal, showReal: real -> string): string {
    ", Возраст: " + IntToString(a.age) + ", Среда: " + a.habitat
    + ", Питание: " + a.dietType + ", Вес: " + showReal(a.weight)
    + " кг, Окрас: " + a.color
  }

  function FurStatus(hasFur: bool): string {
    if hasFur then "есть" else "нет"
  }

  function VenomStatus(isVenomous: bool): string {
    if isVenomous then "ядовитое" else "неядовитое"
  }

  /** What each category's override appends to the shared description. */
  function CategoryTail(a: Animal, showReal: real -> string): string {
    match a
    case Mammal(_, _, _, _, _, _, hasFur) =>
      ", Тип: Млекопитающее, Шерсть: " + FurStatus(hasFur)
    case Bird(_, _, _, _, _, _, wingSpan) =>
      ", Тип: Птица, Размах крыльев: " + showReal(wingSpan) + " м"
    case Fish(_, _, _, _, _, _, waterType) =>
      ", Тип: Рыба, Тип воды: " + waterType
    case Reptile(_, _, _, _, _, _, isVenomous) =>
      ", Тип: Пресмыкающееся, Ядовитость: " + VenomStatus(isVenomous)
    case Amphibian(_, _, _, _, _, _, skinMoisture) =>
      ", Тип: Земноводное, Влажность кожи: " + skinMoisture
  }

  /** The full description: the shared part followed by the category part. */
  function Info(a: Animal, showReal: real -> string): (r: string)
    ensures |r| > |BaseInfo(a, showReal)|
    ensures r[..|BaseInfo(a, showReal)|] == BaseInfo(a, showReal)
  {
    BaseInfo(a, showReal) + CategoryTail(a, showReal)
  }

  /** The description as a function value: what the registry calls on each
      animal it shows (the virtual GetInfo). */
  function Describer(showReal: real -> string): Animal -> string {
    a => Info(a, showReal)
  }

  /** Both animals belong to the same category. */
  predicate SameCategory(a: Animal, b: Animal) {
    (a.Mammal? && b.Mammal?) || (a.Bird? && b.Bird?) || (a.Fish? && b.Fish?)
    || (a.Reptile? && b.Reptile?) || (a.Amphibian? && b.Amphibian?)
  }

  /** Both animals show the same category-specific value. */
  predicate SameExtra(a: Animal, b: Animal, showReal: real -> string)
    requires SameCategory(a, b)
  {
    match a
    case Mammal(_, _, _, _, _, _, _) => a.hasFur == b.hasFur
    case Bird(_, _, _, _, _, _, _) => showReal(a.wingSpan) == showReal(b.wingSpan)
    case Fish(_, _, _, _, _, _, _) => a.waterType == b.waterType
    case Reptile(_, _, _, _, _, _, _) => a.isVenomous == b.isVenomous
    case Amphibian(_, _, _, _, _, _, _) => a.skinMoisture == b.skinMoisture
  }

  /** The part of the description after the shared prefix. */
  function InfoAfterBase(a: Animal, showReal: real -> string): string {
    Info(a, showReal)[|BaseInfo(a, showReal)|..]
  }

  /** Every description starts with "Кличка: " and the animal's name, and
      continues after the shared description with the category part. */
  lemma InfoShape(a: Animal, showReal: real -> string)
    ensures Info(a, showReal)[..8] == "Кличка: "
    ensures Info(a, showReal)[8..8 + |a.name|] == a.name
    ensures InfoAfterBase(a, showReal) == CategoryTail(a, showReal)
  {
    var rest, tail := SharedFields(a, showReal), CategoryTail(a, showReal);
    assert Info(a, showReal) == "Кличка: " + a.name + (rest + tail);
  }

  /** The eighth and ninth characters of a category part name the category. */
  lemma TailMarks(a: Animal, showReal: real -> string)
    ensures |CategoryTail(a, showReal)| > 9
    ensures CategoryTail(a, showReal)[7] == (match a
      case Mammal(_, _, _, _, _, _, _) => 'М'
      case Bird(_, _, _, _, _, _, _) => 'П'
      case Fish(_, _, _, _, _, _, _) => 'Р'
      case Reptile(_, _, _, _, _, _, _) => 'П'
      case Amphibian(_, _, _, _, _, _, _) => 'З')
    ensures a.Bird? ==> CategoryTail(a, showReal)[8] == 'т'
    ensures a.Reptile? ==> CategoryTail(a, showReal)[8] == 'р'
  {
  }

  /** Equal category parts of two animals of one category show the same extra value. */
  lemma SameTailSameExtra(a: Animal, b: Animal, showReal: real -> string)
    requires SameCategory(a, b)
    requires CategoryTail(a, showReal) == CategoryTail(b, showReal)
    ensures SameExtra(a, b, showReal)
  {
    var ta, tb := CategoryTail(a, showReal), CategoryTail(b, showReal);
    match a
    case Mammal(_, _, _, _, _, _, _) =>
      assert |ta| == |tb|;
    case Bird(_, _, _, _, _, _, _) =>
      var p := ", Тип: Птица, Размах крыльев: ";
      assert ta[|p|..|ta| - 2] == showReal(a.wingSpan);
      assert tb[|p|..|tb| - 2] == showReal(b.wingSpan);
    case Fish(_, _, _, _, _, _, _) =>
      var p := ", Тип: Рыба, Тип воды: ";
      assert ta[|p|..] == a.waterType;
      assert tb[|p|..] == b.waterType;
    case Reptile(_, _, _, _, _, _, _) =>
      assert |ta| == |tb|;
    case Amphibian(_, _, _, _, _, _, _) =>
      var p := ", Тип: Земноводное, Влажность кожи: ";
      assert ta[|p|..] == a.skinMoisture;
      assert tb[|p|..] == b.skinMoisture;
  }

  /** The part after the shared prefix depends on the category and its one
      extra field only, and tells both of them apart. */
  lemma TailDeterminesCategory(a: Animal, b: Animal, showReal: real -> string)
    ensures InfoAfterBase(a, showReal) == InfoAfterBase(b, showReal)
            <==> SameCategory(a, b) && SameExtra(a, b, showReal)
  {
    InfoShape(a, showReal);
    InfoShape(b, showReal);
    if InfoAfterBase(a, showReal) == InfoAfterBase(b, showReal) {
      TailMarks(a, showReal);
      TailMarks(b, showReal);
      SameTailSameExtra(a, b, showReal);
    }
  }

  /** A mammal's description ends in "Шерсть: есть" exactly when it has fur. */
  lemma FurShownIff(a: Animal, showReal: real -> string)
    requires a.Mammal?
    ensures EndsWith(Info(a, showReal), "Шерсть: есть") <==> a.hasFur
  {
    var info := Info(a, showReal);
    if !a.hasFur {
      assert info[|info| - 1] == 'т';
    } else {
      assert info == BaseInfo(a, showReal) + ", Тип: Млекопитающее, " + "Шерсть: есть";
    }
  }

  /** A reptile's description ends in "Ядовитость: ядовитое" exactly when it is
      venomous ("неядовитое" itself ends in "ядовитое", so the label matters). */
  lemma VenomShownIff(a: Animal, showReal: real -> string)
    requires a.Reptile?
    ensures EndsWith(Info(a, showReal), "Ядовитость: ядовитое") <==> a.isVenomous
  {
    var info := Info(a, showReal);
    var t := "Ядовитость: ядовитое";
    if !a.isVenomous {
      assert info[|info| - 9] == 'е';
      assert t[|t| - 9] == ' ';
    } else {
      assert info == BaseInfo(a, showReal) + ", Тип: Пресмыкающееся, " + t;
    }
  }
}
