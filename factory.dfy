/** The Factory Method and Abstract Factory patterns: pizza factories and
    stores that map a pizza type to a pizza, and ingredient factories that give
    each region its own dough and clams. */
module PizzaFactory {

  import opened Wrappers

  /** A pizza's four fields (BasePizza). The topping list is a value: the
      pizza keeps its own copy and never shares the caller's list. */
  datatype Pizza = Pizza(name: string, dough: string, sauce: string, toppings: seq<string>)

  /** The exceptions a store raises. */
  datatype Error =
    | CannotBeMadeNow(pizzaType: string)   // RuntimeError of the type chains
    | OnlyClamAvailable                    // RuntimeError of the abstract-factory store
    | NoNameAttribute                      // AttributeError of an abstract-factory clam pizza

  datatype Result<T> = Success(value: T) | Failure(error: Error)

  /** BasePizza.__init__: toppings default to the empty list. */
  function NewPizza(name: string, dough: string, sauce: string, toppings: Option<seq<string>>): (p: Pizza)
    ensures p.name == name && p.dough == dough && p.sauce == sauce
    ensures toppings.None? ==> p.toppings == []
    ensures toppings.Some? ==> p.toppings == toppings.value
  {
    Pizza(name, dough, sauce, if toppings.Some? then toppings.value else [])
  }

  function CheesePizza(): (p: Pizza)
    ensures p.name == "cheese pizza" && p.dough == "regular crust" && |p.toppings| == 2
  {
    NewPizza("cheese pizza", "regular crust", "marinara pizza sause",
             Some(["fresh mozzarella", "parmesan"]))
  }

  function ClamPizza(): (p: Pizza)
    ensures p.name == "clam pizza" && p.dough == "thin crust" && |p.toppings| == 2
  {
    NewPizza("clam pizza", "thin crust", "white garlic sause",
             Some(["clams", "grated parmesan cheese"]))
  }

  function PepperoniPizza(): (p: Pizza)
    ensures p.name == "pepperoni pizza" && p.dough == "crust" && |p.toppings| == 3
  {
    NewPizza("pepperoni pizza", "crust", "marinara sause",
             Some(["sliced pepperoni", "sliced onion", "grated parmesan cheese"]))
  }

  function VeggiePizza(): (p: Pizza)
    ensures p.name == "veggie pizza" && p.dough == "crust" && |p.toppings| == 6
  {
    NewPizza("veggie pizza", "crust", "marinara sause",
             Some(["shredded mozzarella", "diced onion", "grated parmesan cheese",
                   "sliced mushrooms", "sliced red pepper", "sliced black olives"]))
  }

  /** The four pizzas are four different records. */
  lemma ConcretePizzasDistinct()
    ensures CheesePizza() != ClamPizza() && CheesePizza() != PepperoniPizza() && CheesePizza() != VeggiePizza()
    ensures ClamPizza() != PepperoniPizza() && ClamPizza() != VeggiePizza() && PepperoniPizza() != VeggiePizza()
  {
  }

  // ---------------------------------------------------------------------------
  // The type chains
  // ---------------------------------------------------------------------------

  /** The create_pizza chain shared by SimplePizzaFactory, NYFmPizzaStore and
      ChicagoFmPizzaStore: a lookup in the menu, where a type off the menu gives
      the error that names it. */
  function CreateByChain(pizzaType: string): (r: Result<Pizza>)
    ensures r.Success? <==> pizzaType in Menu()
    ensures r.Success? ==> r.value == Menu()[pizzaType]
    ensures r.Failure? ==> r.error == CannotBeMadeNow(pizzaType)
  {
    if pizzaType == "cheese" then Success(CheesePizza())
    else if pizzaType == "pepperoni" then Success(PepperoniPizza())
    else if pizzaType == "clam" then Success(ClamPizza())
    else if pizzaType == "veggie" then Success(VeggiePizza())
    else Failure(CannotBeMadeNow(pizzaType))
  }

  /** SimplePizzaFactory.create_pizza. */
  function SimpleCreatePizza(pizzaType: string): (r: Result<Pizza>)
    ensures r.Success? <==> pizzaType in {"cheese", "pepperoni", "clam", "veggie"}
    ensures r.Success? ==> r.value.name == pizzaType + " pizza"
    ensures r.Failure? ==> r.error == CannotBeMadeNow(pizzaType)
  {
    CreateByChain(pizzaType)
  }

  /** NYFmPizzaStore.create_pizza. */
  function NYFmCreatePizza(pizzaType: string): (r: Result<Pizza>)
    ensures r.Success? <==> pizzaType in {"cheese", "pepperoni", "clam", "veggie"}
    ensures r.Success? ==> r.value.name == pizzaType + " pizza"
    ensures r.Failure? ==> r.error == CannotBeMadeNow(pizzaType)
  {
    CreateByChain(pizzaType)
  }

  /** ChicagoFmPizzaStore.create_pizza. */
  function ChicagoFmCreatePizza(pizzaType: string): (r: Result<Pizza>)
    ensures r.Success? <==> pizzaType in {"cheese", "pepperoni", "clam", "veggie"}
    ensures r.Success? ==> r.value.name == pizzaType + " pizza"
    ensures r.Failure? ==> r.error == CannotBeMadeNow(pizzaType)
  {
    CreateByChain(pizzaType)
  }

  /** The menu as a table: the independent reference for the chains. */
  function Menu(): (m: map<string, Pizza>)
    ensures m.Keys == {"cheese", "pepperoni", "clam", "veggie"}
  {
    map["cheese" := CheesePizza(), "pepperoni" := PepperoniPizza(),
        "clam" := ClamPizza(), "veggie" := VeggiePizza()]
  }

  /** The two factory-method stores map every type as the simple factory does. */
  lemma StoresAgreeWithSimpleFactory(pizzaType: string)
    ensures NYFmCreatePizza(pizzaType) == SimpleCreatePizza(pizzaType)
    ensures ChicagoFmCreatePizza(pizzaType) == SimpleCreatePizza(pizzaType)
  {
  }

  // ---------------------------------------------------------------------------
  // Ordering
  // ---------------------------------------------------------------------------

  datatype Stage = Prepare | Bake | Cut | Box

  /** A store: the start-up store over the simple factory, or one of the two
      factory-method stores. */
  datatype Store = StartUpStore | NYFmStore | ChicagoFmStore

  /** The create_pizza a store calls: every store creates what the simple
      factory creates. */
  function CreatePizza(store: Store, pizzaType: string): (r: Result<Pizza>)
    ensures r == SimpleCreatePizza(pizzaType)
  {
    match store
    case StartUpStore => SimpleCreatePizza(pizzaType)
    case NYFmStore => NYFmCreatePizza(pizzaType)
    case ChicagoFmStore => ChicagoFmCreatePizza(pizzaType)
  }

  /** An order: the pizza and the stages it went through, or the error. */
  datatype Order = Ordered(pizza: Pizza, stages: seq<Stage>) | OrderFailed(error: Error)

  /** order_pizza of the start-up store and of AbsPizzaStore: create, then
      prepare, bake, cut and box; an error of create_pizza propagates. */
  function OrderPizza(store: Store, pizzaType: string): (o: Order)
    ensures CreatePizza(store, pizzaType).Success? <==> o.Ordered?
    ensures o.Ordered? ==>
      o.pizza == CreatePizza(store, pizzaType).value && o.stages == [Prepare, Bake, Cut, Box]
    ensures o.OrderFailed? ==> o.error == CreatePizza(store, pizzaType).error
  {
    match CreatePizza(store, pizzaType)
    case Success(p) => Ordered(p, [Prepare, Bake, Cut, Box])
    case Failure(e) => OrderFailed(e)
  }

  /** Every store orders exactly the menu pizza of the type, or fails naming it. */
  lemma OrderFromMenu(store: Store, pizzaType: string)
    ensures OrderPizza(store, pizzaType) ==
      if pizzaType in Menu() then Ordered(Menu()[pizzaType], [Prepare, Bake, Cut, Box])
      else OrderFailed(CannotBeMadeNow(pizzaType))
  {
  }

  // ---------------------------------------------------------------------------
  // Abstract factory
  // ---------------------------------------------------------------------------

  datatype Dough = ThinCrustDough | ThickCrustDough
  datatype Clams = FreshClams | FrozenClams

  datatype IngredientFactory = NYIngredientFactory | ChicagoIngredientFactory

  function CreateDough(f: IngredientFactory): (d: Dough)
    ensures d == ThinCrustDough <==> f == NYIngredientFactory
  {
    match f
    case NYIngredientFactory => ThinCrustDough
    case ChicagoIngredientFactory => ThickCrustDough
  }

  function CreateClam(f: IngredientFactory): (c: Clams)
    ensures c == FreshClams <==> f == NYIngredientFactory
  {
    match f
    case NYIngredientFactory => FreshClams
    case ChicagoIngredientFactory => FrozenClams
  }

  /** The two ingredients of a factory belong to the same region: thin dough
      comes with fresh clams and thick dough with frozen ones. */
  lemma IngredientFamilies(f: IngredientFactory)
    ensures CreateDough(f) == ThinCrustDough <==> CreateClam(f) == FreshClams
  {
  }

  /** The pizza the abstract-factory store makes: it holds only its ingredient
      factory (its constructor never sets the base pizza's fields). */
  datatype AfClamPizza = AfClamPizza(ingredientFactory: IngredientFactory)

  /** NYAfPizzaStore.create_pizza: only 'clam', with the NY ingredients. */
  function NYAfCreatePizza(pizzaType: string): (r: Result<AfClamPizza>)
    ensures r.Success? <==> pizzaType == "clam"
    ensures r.Success? ==>
      CreateDough(r.value.ingredientFactory) == ThinCrustDough && CreateClam(r.value.ingredientFactory) == FreshClams
    ensures r.Failure? ==> r.error == OnlyClamAvailable
  {
    if pizzaType == "clam" then Success(AfClamPizza(NYIngredientFactory))
    else Failure(OnlyClamAvailable)
  }

  /** order_pizza on the abstract-factory store: prepare asks the pizza for its
      name, which was never set, so even 'clam' fails there and no order
      succeeds. */
  function NYAfOrderPizza(pizzaType: string): (r: Result<AfClamPizza>)
    ensures r.Failure?
    ensures r.error == if pizzaType == "clam" then NoNameAttribute else OnlyClamAvailable
  {
    match NYAfCreatePizza(pizzaType)
    case Success(_) => Failure(NoNameAttribute)
    case Failure(e) => Failure(e)
  }
}
