/** `ProductService`: creating products, changing the target price, listing
    products, refreshing a product from a search item and filing products into
    folders.

    Each state-changing operation is specified by a step function over the
    store value (`Db`), whose contract says what the operation promises; the
    class `Service` holds the tables as fields and its methods perform the
    operation step by step, proved to agree with the step function. The two
    listings only read the store and are functions of it. */
module ProductService {
  import opened Entities
  import opened ResponseDto
  import opened Store

  /** The smallest target price `updateProduct` accepts. */
  const MIN_MY_PRICE: int32 := 100

  /** The store after an operation, together with what the operation returned. */
  datatype Step<T> = Step(db: Db, result: T)

  datatype Direction = ASC | DESC
  datatype Sort = Sort(direction: Direction, property: string)

  /** `PageRequest.of(page, size, sort)`. */
  datatype Pageable = Pageable(page: int, size: int, sort: Sort)

  /** A page of views: the request that produced it and the view of every
      product the query matched, by id. */
  datatype ProductPage = ProductPage(pageable: Pageable, content: map<int, ProductView>)

  // ---------------------------------------------------------------- creation

  /** `createProduct`: saves a new product owned by `user` under the next free id
      and returns its view. Nothing else in the store changes. */
  function CreateProductStep(db: Db, req: ProductRequest, user: User): (s: Step<ProductView>)
    requires Valid(db)
    ensures Valid(s.db)
    ensures db.nextId !in db.products
    ensures s.db.products.Keys == db.products.Keys + {db.nextId}
    ensures s.db.products[db.nextId] == NewProduct(db.nextId, req, user)
    ensures s.db.products[db.nextId].ownerId == user.id
    ensures forall id :: id in db.products ==> s.db.products[id] == db.products[id]
    ensures s.db.folders == db.folders && s.db.links == db.links
    ensures s.result == ViewOf(s.db, db.nextId) && s.result.productFolderList == []
  {
    var p := NewProduct(db.nextId, req, user);
    var db' := db.(products := db.products[db.nextId := p], nextId := db.nextId + 1);
    assert ProductLinks(db'.links, db.nextId) == [];
    Step(db', View(p, [], db.folders))
  }

  // ------------------------------------------------------- target-price update

  /** `updateProduct`: the price check comes first, then the lookup; on success
      only product `id` changes, to `Update(req)` of its old record. */
  function UpdateProductStep(db: Db, id: int, req: MypriceRequest): (s: Step<Result<ProductView>>)
    requires Valid(db)
    ensures Valid(s.db)
    ensures s.result == Err(InvalidArgument) <==> req.myprice < MIN_MY_PRICE
    ensures s.result == Err(ProductNotFound) <==> req.myprice >= MIN_MY_PRICE && id !in db.products
    ensures s.result.Ok? <==> req.myprice >= MIN_MY_PRICE && id in db.products
    ensures s.result.Err? ==> s.db == db
    ensures s.result.Ok? ==>
              s.db.products.Keys == db.products.Keys &&
              s.db.products[id] == db.products[id].Update(req) &&
              (forall other :: other in db.products && other != id ==>
                 s.db.products[other] == db.products[other]) &&
              s.db.folders == db.folders && s.db.links == db.links && s.db.nextId == db.nextId &&
              s.result.value == ViewOf(s.db, id)
  {
    if req.myprice < MIN_MY_PRICE then Step(db, Err(InvalidArgument))
    else if id !in db.products then Step(db, Err(ProductNotFound))
    else
      var db' := db.(products := db.products[id := db.products[id].Update(req)]);
      Step(db', Ok(ViewOf(db', id)))
  }

  // ------------------------------------------------------ refresh from search

  /** `updateBySearch`: an unknown id fails with NotFound; otherwise only product
      `id` changes, to `UpdateByItem(item)` of its old record. */
  function UpdateBySearchStep(db: Db, id: int, item: Item): (s: Step<Outcome>)
    requires Valid(db)
    ensures Valid(s.db)
    ensures s.result == Fail(NotFound) <==> id !in db.products
    ensures s.result == Pass <==> id in db.products
    ensures s.result.Fail? ==> s.db == db
    ensures s.result.Pass? ==>
              s.db.products.Keys == db.products.Keys &&
              s.db.products[id] == db.products[id].UpdateByItem(item) &&
              (forall other :: other in db.products && other != id ==>
                 s.db.products[other] == db.products[other]) &&
              s.db.folders == db.folders && s.db.links == db.links && s.db.nextId == db.nextId
  {
    if id !in db.products then Step(db, Fail(NotFound))
    else Step(db.(products := db.products[id := db.products[id].UpdateByItem(item)]), Pass)
  }

  // ------------------------------------------------------- folder association

  /** Appending a row that passed `addFolder`'s checks keeps the store valid. */
  lemma AppendLinkKeepsValid(db: Db, pf: ProductFolder)
    requires Valid(db)
    requires pf.productId in db.products && pf.folderId in db.folders
    requires db.products[pf.productId].ownerId == db.folders[pf.folderId].ownerId
    requires pf !in db.links
    ensures Valid(db.(links := db.links + [pf]))
  {
  }

  /** `addFolder`: in this order, an unknown product or an unknown folder fails
      with NotFound, a product or folder the caller does not own fails with
      InvalidArgument, and so does a pair that is already filed; otherwise
      exactly the one row (product, folder) is appended. A failure changes nothing. */
  function AddFolderStep(db: Db, productId: int, folderId: int, user: User): (s: Step<Outcome>)
    requires Valid(db)
    ensures Valid(s.db)
    ensures s.result == Fail(NotFound) <==> productId !in db.products || folderId !in db.folders
    ensures s.result == Fail(InvalidArgument) <==>
              productId in db.products && folderId in db.folders &&
              (db.products[productId].ownerId != user.id || db.folders[folderId].ownerId != user.id ||
               ProductFolder(productId, folderId) in db.links)
    ensures s.result == Pass <==>
              productId in db.products && folderId in db.folders &&
              db.products[productId].ownerId == user.id && db.folders[folderId].ownerId == user.id &&
              ProductFolder(productId, folderId) !in db.links
    ensures s.result.Fail? ==> s.db == db
    ensures s.result.Pass? ==>
              s.db == db.(links := db.links + [ProductFolder(productId, folderId)]) &&
              db.products[productId].ownerId == user.id && db.folders[folderId].ownerId == user.id
  {
    if productId !in db.products then Step(db, Fail(NotFound))
    else if folderId !in db.folders then Step(db, Fail(NotFound))
    else if db.products[productId].ownerId != user.id || db.folders[folderId].ownerId != user.id then
      Step(db, Fail(InvalidArgument))
    else if ProductFolder(productId, folderId) in db.links then Step(db, Fail(InvalidArgument))
    else
      var pf := ProductFolder(productId, folderId);
      AppendLinkKeepsValid(db, pf);
      Step(db.(links := db.links + [pf]), Pass)
  }

  /** Filing the same product into the same folder twice: the first call succeeds,
      the second fails with InvalidArgument and leaves the store as the first left
      it, in which that pair, like every stored pair, occurs exactly once. */
  lemma AddFolderTwice(db: Db, productId: int, folderId: int, user: User)
    requires Valid(db)
    requires AddFolderStep(db, productId, folderId, user).result == Pass
    ensures var first := AddFolderStep(db, productId, folderId, user);
            var second := AddFolderStep(first.db, productId, folderId, user);
            second.result == Fail(InvalidArgument) && second.db == first.db &&
            multiset(second.db.links)[ProductFolder(productId, folderId)] == 1 &&
            forall pf :: pf in second.db.links ==> multiset(second.db.links)[pf] == 1
  {
    var first := AddFolderStep(db, productId, folderId, user);
    forall pf | pf in first.db.links ensures multiset(first.db.links)[pf] == 1 {
      DistinctOnce(first.db.links, pf);
    }
  }

  // ---------------------------------------------------------------- listings

  /** The page request `getProducts` and `getProductsInFolder` build: ascending
      exactly when `isAsc`, sorted on `sortBy`. */
  function ToPageable(page: int, size: int, sortBy: string, isAsc: bool): (r: Pageable)
    ensures r.sort.direction == ASC <==> isAsc
    ensures r.sort.property == sortBy && r.page == page && r.size == size
  {
    var direction := if isAsc then ASC else DESC;
    Pageable(page, size, Sort(direction, sortBy))
  }

  /** `Page.map(ProductResponseDto::new)` over the products a query matched. */
  function PageOf(db: Db, pageable: Pageable, ids: set<int>): (r: ProductPage)
    requires Valid(db) && ids <= db.products.Keys
    ensures r.pageable == pageable && r.content.Keys == ids
    ensures forall id :: id in r.content ==> r.content[id] == ViewOf(db, id)
  {
    ProductPage(pageable, map id | id in ids :: ViewOf(db, id))
  }

  /** `getProducts`: a caller with role USER sees exactly their own products,
      a caller with any other role sees every product. */
  function GetProducts(db: Db, user: User, page: int, size: int, sortBy: string, isAsc: bool): (r: ProductPage)
    requires Valid(db)
    ensures r.pageable.sort.direction == ASC <==> isAsc
    ensures r.pageable == Pageable(page, size, Sort(r.pageable.sort.direction, sortBy))
    ensures forall id :: id in r.content <==>
              id in db.products && (user.role == USER ==> db.products[id].ownerId == user.id)
    ensures forall id :: id in r.content ==> r.content[id] == ViewOf(db, id)
  {
    var pageable := ToPageable(page, size, sortBy, isAsc);
    var ids := if user.role == USER then FindAllByUser(db, user) else FindAll(db);
    PageOf(db, pageable, ids)
  }

  /** `getProductsInFolder`: exactly the caller's own products that are filed in
      folder `folderId`, whatever the caller's role. */
  function GetProductsInFolder(db: Db, folderId: int, page: int, size: int, sortBy: string,
                               isAsc: bool, user: User): (r: ProductPage)
    requires Valid(db)
    ensures r.pageable.sort.direction == ASC <==> isAsc
    ensures r.pageable == Pageable(page, size, Sort(r.pageable.sort.direction, sortBy))
    ensures forall id :: id in r.content <==>
              id in db.products && db.products[id].ownerId == user.id &&
              ProductFolder(id, folderId) in db.links
    ensures forall id :: id in r.content ==> r.content[id] == ViewOf(db, id)
  {
    var pageable := ToPageable(page, size, sortBy, isAsc);
    PageOf(db, pageable, FindAllByUserAndFolderId(db, user, folderId))
  }

  /** The folder listing has no role bypass: an elevated caller gets the same page
      as an ordinary caller with the same id, and it never exceeds the caller's
      own product listing. */
  lemma FolderListingIgnoresRole(db: Db, folderId: int, page: int, size: int, sortBy: string,
                                 isAsc: bool, user: User)
    requires Valid(db)
    ensures GetProductsInFolder(db, folderId, page, size, sortBy, isAsc, user)
         == GetProductsInFolder(db, folderId, page, size, sortBy, isAsc, user.(role := USER))
    ensures GetProductsInFolder(db, folderId, page, size, sortBy, isAsc, user).content.Keys
         <= GetProducts(db, user.(role := USER), page, size, sortBy, isAsc).content.Keys
  {
  }

  // ------------------------------------------------------------- the service

  /** The service together with the tables its repositories reach. */
  class Service {
    var products: map<int, Product>
    var folders: map<int, Folder>
    var links: seq<ProductFolder>
    var nextId: int

    /** The tables as a store value. */
    function State(): Db
      reads this
    {
      Db(products, folders, links, nextId)
    }

    ghost predicate Valid()
      reads this
    {
      Store.Valid(State())
    }

    /** A service over the given (already existing) folders and no products. */
    constructor (existingFolders: map<int, Folder>)
      requires forall id :: id in existingFolders ==> existingFolders[id].id == id
      ensures Valid()
      ensures State() == Db(map[], existingFolders, [], 1)
    {
      products := map[];
      folders := existingFolders;
      links := [];
      nextId := 1;
    }

    method CreateProduct(req: ProductRequest, user: User) returns (r: ProductView)
      requires Valid()
      modifies this
      ensures Valid()
      ensures Step(State(), r) == CreateProductStep(old(State()), req, user)
    {
      var product := NewProduct(nextId, req, user);
      products := products[nextId := product];
      nextId := nextId + 1;
      r := BuildView(product, [], folders);
    }

    method UpdateProduct(id: int, req: MypriceRequest) returns (r: Result<ProductView>)
      requires Valid()
      modifies this
      ensures Valid()
      ensures Step(State(), r) == UpdateProductStep(old(State()), id, req)
    {
      var myprice := req.myprice;
      if myprice < MIN_MY_PRICE {
        return Err(InvalidArgument);
      }
      if id !in products {
        return Err(ProductNotFound);
      }
      var product := products[id].Update(req);
      products := products[id := product];
      var view := BuildView(product, ProductLinks(links, id), folders);
      r := Ok(view);
    }

    method UpdateBySearch(id: int, item: Item) returns (r: Outcome)
      requires Valid()
      modifies this
      ensures Valid()
      ensures Step(State(), r) == UpdateBySearchStep(old(State()), id, item)
    {
      if id !in products {
        return Fail(NotFound);
      }
      products := products[id := products[id].UpdateByItem(item)];
      r := Pass;
    }

    method AddFolder(productId: int, folderId: int, user: User) returns (r: Outcome)
      requires Valid()
      modifies this
      ensures Valid()
      ensures Step(State(), r) == AddFolderStep(old(State()), productId, folderId, user)
    {
      if productId !in products {
        return Fail(NotFound);
      }
      var product := products[productId];
      if folderId !in folders {
        return Fail(NotFound);
      }
      var folder := folders[folderId];
      if product.ownerId != user.id || folder.ownerId != user.id {
        return Fail(InvalidArgument);
      }
      var pair := ProductFolder(productId, folderId);
      if pair in links {
        return Fail(InvalidArgument);
      }
      AppendLinkKeepsValid(State(), pair);
      links := links + [pair];
      r := Pass;
    }
  }
}

/** The service's documented scenarios, checked against the method contracts alone. */
module Scenarios {
  import opened Entities
  import opened ResponseDto
  import opened Store
  import opened ProductService

  /** User A owns folder 1, user B owns folder 2. A tracks a product listed at
      10000; a target price of 50 is refused and leaves the target price as it
      was, 9500 is accepted. Filing the product into B's folder is refused,
      into A's folder accepted once and refused the second time. A refresh from
      a search item replaces the listed price and keeps the target price. */
  method PriceAndFolderScenario() {
    var a := User(1, USER);
    var b := User(2, USER);
    var service := new Service(map[1 := Folder(1, "A's folder", 1), 2 := Folder(2, "B's folder", 2)]);

    var created := service.CreateProduct(ProductRequest("title", "link", "image", 10000), a);
    assert created.id == 1 && created.lprice == 10000;
    var before := service.products[1].myprice;

    var low := service.UpdateProduct(1, MypriceRequest(50));
    assert low == Err(InvalidArgument);
    assert service.products[1].myprice == before;

    var ok := service.UpdateProduct(1, MypriceRequest(9500));
    assert ok.Ok? && ok.value.myprice == 9500;

    var other := service.AddFolder(1, 2, a);
    assert other == Fail(InvalidArgument);
    var first := service.AddFolder(1, 1, a);
    assert first == Pass;
    var again := service.AddFolder(1, 1, a);
    assert again == Fail(InvalidArgument);
    assert service.links == [ProductFolder(1, 1)];

    var refreshed := service.UpdateBySearch(1, Item("X", "l", "i", 8000));
    assert refreshed == Pass;
    assert service.products[1].title == "X" && service.products[1].lprice == 8000;
    assert service.products[1].myprice == 9500;
  }
}
