/** The Builder example: a builder that fills in a pending `Car` and hands it over on `build`,
    starting again with a new empty car. */
module Builder {
  import opened Wrappers
  import PyText

  class Car {
    var model: Option<string>
    var year: Option<int>

    /** A new car has neither model nor year. */
    constructor ()
      ensures model == None && year == None
    {
      model, year := None, None;
    }
  }

  /** How an f-string shows an optional field: `None` when it is unset. */
  function ShowModel(model: Option<string>): string
  {
    match model
    case None => "None"
    case Some(m) => m
  }

  function ShowYear(year: Option<int>): string
  {
    match year
    case None => "None"
    case Some(y) => PyText.IntToString(y)
  }

  /** `str(car)`: "Car: {model} {year}". */
  function Describe(model: Option<string>, year: Option<int>): (s: string)
  {
    "Car: " + ShowModel(model) + " " + ShowYear(year)
  }

  /** A year is shown as digits (with a sign when negative), so it never reads as "None"; the
      shown year therefore tells set and unset years apart, and set years apart from each other. */
  lemma ShowYearInjective(a: Option<int>, b: Option<int>)
    ensures ShowYear(a) == ShowYear(b) ==> a == b
  {
    if ShowYear(a) == ShowYear(b) {
      match (a, b)
      case (None, None) =>
      case (Some(x), Some(y)) => PyText.IntToStringInjective(x, y);
      case (Some(x), None) => NotNone(x);
      case (None, Some(y)) => NotNone(y);
    }
  }

  lemma NotNone(y: int)
    ensures PyText.IntToString(y) != "None"
  {
    var s := PyText.IntToString(y);
    assert s[0] == '-' || PyText.IsDigit(s[0]);
  }

  class CarBuilder {
    var car: Car

    constructor ()
      ensures fresh(car) && car.model == None && car.year == None
    {
      car := new Car();
    }

    /** `set_model`: sets the pending car's model only, and returns this builder. */
    method SetModel(model: string) returns (b: CarBuilder)
      modifies car
      ensures b == this && car.model == Some(model) && car.year == old(car.year)
    {
      car.model := Some(model);
      b := this;
    }

    /** `set_year`: sets the pending car's year only, and returns this builder. */
    method SetYear(year: int) returns (b: CarBuilder)
      modifies car
      ensures b == this && car.year == Some(year) && car.model == old(car.model)
    {
      car.year := Some(year);
      b := this;
    }

    /** `build`: hands over the pending car with the fields set so far, and resets. */
    method Build() returns (built: Car)
      modifies this
      ensures built == old(car)
      ensures fresh(car) && car != built && car.model == None && car.year == None
    {
      built := car;
      Reset();
    }

    /** `reset`: the builder starts over with a new empty car. */
    method Reset()
      modifies this
      ensures fresh(car) && car.model == None && car.year == None
    {
      car := new Car();
    }
  }

  /** The str test: model "Roadster" and year 2023 give "Car: Roadster 2023". */
  method DescribeScenario() returns (s: string)
    ensures s == "Car: Roadster 2023"
  {
    var builder := new CarBuilder();
    var b := builder.SetModel("Roadster");
    b := b.SetYear(2023);
    var car := builder.Build();
    s := Describe(car.model, car.year);
    assert PyText.IntToString(2023) == "2023" by {
      PyText.IntToStringRoundTrip(2023);
    }
  }

  /** The reset tests: after building a car with model and year, a second build, with only the
      model set, gives a different car whose year is unset; the first car is unchanged. */
  method ResetScenario() returns (model1: Option<string>, year1: Option<int>,
                                  model2: Option<string>, year2: Option<int>, distinct: bool)
    ensures model1 == Some("Model Y") && year1 == Some(2020)
    ensures model2 == Some("Model Z") && year2 == None
    ensures distinct
  {
    var builder := new CarBuilder();
    var b := builder.SetModel("Model Y");
    b := b.SetYear(2020);
    var car1 := builder.Build();
    b := builder.SetModel("Model Z");
    var car2 := builder.Build();
    model1, year1, model2, year2 := car1.model, car1.year, car2.model, car2.year;
    distinct := car1 != car2;
  }

  /** Building twice in a row gives an empty second car. */
  method BuildTwiceScenario() returns (model2: Option<string>, year2: Option<int>, distinct: bool)
    ensures model2 == None && year2 == None && distinct
  {
    var builder := new CarBuilder();
    var b := builder.SetModel("Model S");
    b := b.SetYear(2022);
    var car1 := builder.Build();
    var car2 := builder.Build();
    model2, year2 := car2.model, car2.year;
    distinct := car1 != car2;
  }
}
