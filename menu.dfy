/** The compiled-in catalog `PRODUCTS` and facts about filtering it. */
module Menu {
  import opened PosTypes
  import opened Text
  import opened Catalog

  /** The category keys offered by the category bar, `'all'` first. */
  const Categories: seq<string> := ["all", "coffee", "bakery", "main", "dessert", "drinks"]

  const Coffee: seq<Product> := [
    Product("1", "Caramel Macchiato", 4.5, "coffee",
      "https://images.unsplash.com/photo-1485808191679-5f86510681a2?auto=format&fit=crop&w=400&q=80"),
    Product("2", "Hot Cappuccino", 3.8, "coffee",
      "https://images.unsplash.com/photo-1572442388796-11668a67e53d?auto=format&fit=crop&w=400&q=80"),
    Product("3", "Iced Americano", 3.2, "coffee",
      "https://images.unsplash.com/photo-1517701550927-30cf4ba1dba5?auto=format&fit=crop&w=400&q=80"),
    Product("4", "Espresso Double", 2.5, "coffee",
      "https://images.unsplash.com/photo-1510591509098-f4fdc6d0ff04?auto=format&fit=crop&w=400&q=80")
  ]

  const Bakery: seq<Product> := [
    Product("5", "Butter Croissant", 3.0, "bakery",
      "https://images.unsplash.com/photo-1555507036-ab1f40388085?auto=format&fit=crop&w=400&q=80"),
    Product("6", "Choco Muffin", 3.5, "bakery",
      "https://images.unsplash.com/photo-1607958996333-41aef7caefaa?auto=format&fit=crop&w=400&q=80"),
    Product("7", "Bagel & Cream", 4.0, "bakery",
      "https://images.unsplash.com/photo-1585478259715-876a6a81bc08?auto=format&fit=crop&w=400&q=80"),
    Product("8", "Sourdough Toast", 5.5, "bakery",
      "https://images.unsplash.com/photo-1586444248902-2f64eddc13df?auto=format&fit=crop&w=400&q=80")
  ]

  const MainCourse: seq<Product> := [
    Product("9", "Beef Burger", 8.9, "main",
      "https://images.unsplash.com/photo-1568901346375-23c9450c58cd?auto=format&fit=crop&w=400&q=80"),
    Product("10", "Spaghetti Carbonara", 9.5, "main",
      "https://images.unsplash.com/photo-1612874742237-6526221588e3?auto=format&fit=crop&w=400&q=80"),
    Product("11", "Caesar Salad", 7.2, "main",
      "https://images.unsplash.com/photo-1550304943-4f24f54ddde9?auto=format&fit=crop&w=400&q=80"),
    Product("12", "Grilled Salmon", 12.0, "main",
      "https://images.unsplash.com/photo-1467003909585-2f8a7270028d?auto=format&fit=crop&w=400&q=80"),
    Product("13", "Club Sandwich", 6.5, "main",
      "https://images.unsplash.com/photo-1528735602780-2552fd46c7af?auto=format&fit=crop&w=400&q=80")
  ]

  const Dessert: seq<Product> := [
    Product("14", "Berry Cheesecake", 5.0, "dessert",
      "https://images.unsplash.com/photo-1524351199678-941a58a3df50?auto=format&fit=crop&w=400&q=80"),
    Product("15", "Classic Tiramisu", 5.5, "dessert",
      "https://images.unsplash.com/photo-1571875257727-256c39da42af?auto=format&fit=crop&w=400&q=80"),
    Product("16", "Fudgy Brownie", 4.0, "dessert",
      "https://images.unsplash.com/photo-1606313564200-e75d5e30476c?auto=format&fit=crop&w=400&q=80"),
    Product("17", "Vanilla Ice Cream", 3.5, "dessert",
      "https://images.unsplash.com/photo-1560008581-09826d1de69e?auto=format&fit=crop&w=400&q=80")
  ]

  const Drinks: seq<Product> := [
    Product("18", "Fresh Lemonade", 3.0, "drinks",
      "https://images.unsplash.com/photo-1513558161293-cdaf765ed2fd?auto=format&fit=crop&w=400&q=80"),
    Product("19", "Iced Lemon Tea", 2.5, "drinks",
      "https://images.unsplash.com/photo-1556679343-c7306c1976bc?auto=format&fit=crop&w=400&q=80"),
    Product("20", "Orange Juice", 4.0, "drinks",
      "https://images.unsplash.com/photo-1613478223719-2ab802602423?auto=format&fit=crop&w=400&q=80")
  ]

  /** `PRODUCTS`: the five sections in the order they are listed. */
  const Products: seq<Product> := Coffee + Bakery + MainCourse + Dessert + Drinks

  /** Every product of the menu has its own id and a positive price. */
  lemma MenuWellFormed()
    ensures |Products| == 20
    ensures forall i, j :: 0 <= i < j < |Products| ==> Products[i].id != Products[j].id
    ensures forall i :: 0 <= i < |Products| ==> Products[i].price > 0.0
  {
  }

  /** The four sections after the coffee section. */
  lemma ProductsAfterCoffee()
    ensures Products == Coffee + (Bakery + MainCourse + Dessert + Drinks)
  {
  }

  lemma CoffeeShown()
    ensures forall p :: p in Coffee ==> Visible(p, "coffee", "")
  {
    forall p | p in Coffee
      ensures Visible(p, "coffee", "")
    {
      IncludesEmpty(Lower(p.name));
    }
  }

  lemma OthersNotCoffee()
    ensures forall p :: p in Bakery + MainCourse + Dessert + Drinks ==> !Visible(p, "coffee", "")
  {
  }

  /** The coffee category with no search shows exactly the coffee section, in order. */
  lemma CoffeeCategory()
    ensures FilterProducts(Products, "coffee", "") == Coffee
  {
    ProductsAfterCoffee();
    CoffeeShown();
    OthersNotCoffee();
    FilterKeepsPrefix(Coffee, Bakery + MainCourse + Dessert + Drinks, "coffee", "");
  }

  /** The products listed before and after the Choco Muffin. */
  lemma ProductsAroundMuffin()
    ensures Products == (Coffee + [Bakery[0]]) + [Bakery[1]] + ([Bakery[2], Bakery[3]] + (MainCourse + Dessert + Drinks))
  {
  }

  lemma MuffinFound()
    ensures Visible(Bakery[1], "bakery", "MUF")
  {
    var name := Lower(Bakery[1].name);
    assert Lower("MUF") == "muf";
    assert name[6..9] == "muf";
    IncludesIff(name, "muf");
    assert OccursAt(name, "muf", 6);
  }

  /** A product whose name has no letter f, in either case, does not match the search "MUF". */
  lemma NoLetterF(p: Product)
    requires 'f' !in p.name && 'F' !in p.name
    ensures !MatchesSearch(p, "MUF")
  {
    assert Lower("MUF")[2] == 'f';
    assert ('f' as int - 32) as char == 'F';
    SearchMisses(p, "MUF", 2);
  }

  lemma CroissantHidden()
    ensures !Visible(Bakery[0], "bakery", "MUF")
  {
    NoLetterF(Bakery[0]);
  }

  lemma BagelHidden()
    ensures !Visible(Bakery[2], "bakery", "MUF")
  {
    NoLetterF(Bakery[2]);
  }

  lemma SourdoughHidden()
    ensures !Visible(Bakery[3], "bakery", "MUF")
  {
    NoLetterF(Bakery[3]);
  }

  lemma CoffeeNotBakery()
    ensures forall p :: p in Coffee ==> !MatchesCat(p, "bakery")
  {
  }

  lemma LaterSectionsNotBakery()
    ensures forall p :: p in MainCourse + Dessert + Drinks ==> !MatchesCat(p, "bakery")
  {
  }

  lemma NoMuffinBefore()
    ensures forall p :: p in Coffee + [Bakery[0]] ==> !Visible(p, "bakery", "MUF")
  {
    CroissantHidden();
    CoffeeNotBakery();
  }

  lemma NoMuffinAfter()
    ensures forall p :: p in [Bakery[2], Bakery[3]] + (MainCourse + Dessert + Drinks) ==> !Visible(p, "bakery", "MUF")
  {
    BagelHidden();
    SourdoughHidden();
    LaterSectionsNotBakery();
  }

  /** Searching "MUF" among the bakery products finds only the Choco Muffin: the search ignores case. */
  lemma SearchMuffin()
    ensures FilterProducts(Products, "bakery", "MUF") == [Bakery[1]]
  {
    ProductsAroundMuffin();
    MuffinFound();
    NoMuffinBefore();
    NoMuffinAfter();
    FilterSingleMatch(Coffee + [Bakery[0]], Bakery[1], [Bakery[2], Bakery[3]] + (MainCourse + Dessert + Drinks),
                      "bakery", "MUF");
  }
}
