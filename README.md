# my-select-shop: the product service, modelled in Dafny

The application tracks products a user wants to buy, each with a listed price
(`lprice`) and a target price (`myprice`), and lets the user file products
into folders. This project models its product service and the response view
it returns:

- `entities.dfy` (module `Entities`): users and roles, products, folders, the
  product-folder association rows, the request payloads, the error kinds
  (`InvalidArgument` for `IllegalArgumentException`, `ProductNotFound` for
  `ProductNotFoundException`, `NotFound` for `NullPointerException`).
- `response_dto.dfy` (module `ResponseDto`): `ProductResponseDto` and its folder
  list. `BuildView` is the constructor's loop; `View` is the function it is
  proved against.
- `store.dfy` (module `Store`): the three tables as a value `Db` (products by
  id, folders by id, association rows in the order they were saved, the next
  product id), the store invariant `Valid`, a product's association list, and
  the repository lookups by owner and by owner plus folder.
- `product_service.dfy` (module `ProductService`): one step function per
  state-changing operation, whose contract says what the operation promises;
  the class `Service`, whose fields are the tables and whose methods perform
  each operation check by check and are proved to agree with the step
  function and to keep `Valid`; the two listings as functions of the store.
  Module `Scenarios` checks the documented scenarios (minimum price, folder
  ownership, duplicate filing, refresh from a search item) against the method
  contracts alone; they are verified, and rely on the assumed entity updates
  described under "Left out".

The store invariant says that every record sits under its own id, that every
association row links an existing product and an existing folder with the same
owner, and that no row occurs twice. Rows are kept as a sequence, so the
duplicate check in `addFolder` is the only thing that keeps them distinct.

The service throws `IllegalArgumentException` both for a product or folder the
caller does not own and for a pair that is already filed, so the model has one
kind, `InvalidArgument`, for both; there is no separate authorization or
conflict error.

## Model

| member | source | states |
|---|---|---|
| `Entities.NewProduct` | src/main/java/com/sparta/myselectshop/service/ProductService.java:40 | the new product carries the id the store assigns and is owned by the requesting user |
| `Entities.Product.Update` | src/main/java/com/sparta/myselectshop/service/ProductService.java:69 | updating the target price keeps the product's id and owner |
| `Entities.Product.UpdateByItem` | src/main/java/com/sparta/myselectshop/service/ProductService.java:101 | refreshing from a search item keeps the product's id and owner |
| `ResponseDto.FolderViewsAt` | src/main/java/com/sparta/myselectshop/dto/ProductResponseDto.java:21-34 | the folder list, started empty and appended once per association, has as many entries as the association list, and its i-th entry is the view of the i-th association's folder |
| `ResponseDto.BuildView` | src/main/java/com/sparta/myselectshop/dto/ProductResponseDto.java:23-35 | id, title, link, image, lprice and myprice are the product's; one folder entry per association, in order, built from that association's folder; the inputs are values and are left unchanged |
| `Store.ProductLinks` | src/main/java/com/sparta/myselectshop/dto/ProductResponseDto.java:32 | a product's association list holds exactly the stored rows for that product, is empty when no row names it, and has no repeated row when the table has none |
| `Store.DistinctOnce` | src/main/java/com/sparta/myselectshop/service/ProductService.java:118-125 | in a table without duplicate rows, a stored row occurs exactly once |
| `ProductService.CreateProductStep` | src/main/java/com/sparta/myselectshop/service/ProductService.java:39-42 | exactly one new product, under an id not used before, built from the request and owned by the user; every other product, the folders and the associations are unchanged; the result is the new product's view, with an empty folder list; the store stays valid |
| `ProductService.UpdateProductStep` | src/main/java/com/sparta/myselectshop/service/ProductService.java:37-72 | InvalidArgument exactly when myprice is below MIN_MY_PRICE = 100, whether or not the id exists; ProductNotFound exactly when the price is allowed and the id is unknown; any failure leaves the store unchanged; success changes only product id and returns its updated view; the store stays valid |
| `ProductService.UpdateBySearchStep` | src/main/java/com/sparta/myselectshop/service/ProductService.java:95-102 | NotFound exactly when the id is unknown, with the store unchanged; success exactly when the id is known, and then only product id changes, to its record refreshed from the item; folders and associations unchanged; the store stays valid |
| `ProductService.AppendLinkKeepsValid` | src/main/java/com/sparta/myselectshop/service/ProductService.java:113-125 | appending a row for an existing product and folder of the same owner that is not yet stored keeps rows distinct and cross-user free |
| `ProductService.AddFolderStep` | src/main/java/com/sparta/myselectshop/service/ProductService.java:104-126 | NotFound exactly when the product or the folder is unknown; otherwise InvalidArgument exactly when the caller owns neither or only one of them, or the pair is already stored; any failure leaves the store unchanged; success exactly when both exist, the caller owns both and the pair is not stored, and then exactly the one pair is appended; the store stays valid |
| `ProductService.AddFolderTwice` | src/main/java/com/sparta/myselectshop/service/ProductService.java:118-125 | filing the same valid pair twice: the first call succeeds, the second fails with InvalidArgument and changes nothing, and the pair, like every stored pair, occurs exactly once |
| `ProductService.ToPageable` | src/main/java/com/sparta/myselectshop/service/ProductService.java:79-81 | the sort direction is ascending exactly when isAsc; page, size and sort field are the caller's |
| `ProductService.GetProducts` | src/main/java/com/sparta/myselectshop/service/ProductService.java:75-93 | a caller with role USER gets exactly their own products, any other role gets every product; each as its view; ascending exactly when isAsc |
| `ProductService.GetProductsInFolder` | src/main/java/com/sparta/myselectshop/service/ProductService.java:128-141 | exactly the caller's own products that have a row with the given folder, whatever the role; each as its view; ascending exactly when isAsc |
| `ProductService.FolderListingIgnoresRole` | src/main/java/com/sparta/myselectshop/repository/ProductRepository.java:11-25 | the folder listing gives an elevated caller the same page as an ordinary caller with the same id, and never more than that caller's own product listing |
| `ProductService.Service.CreateProduct` | src/main/java/com/sparta/myselectshop/service/ProductService.java:39-42 | the new tables and the returned view are those of CreateProductStep on the old tables; the invariant is kept |
| `ProductService.Service.UpdateProduct` | src/main/java/com/sparta/myselectshop/service/ProductService.java:44-72 | checks the price, then looks up the id, then updates and builds the view; new tables and result are those of UpdateProductStep on the old tables |
| `ProductService.Service.UpdateBySearch` | src/main/java/com/sparta/myselectshop/service/ProductService.java:95-102 | new tables and outcome are those of UpdateBySearchStep on the old tables |
| `ProductService.Service.AddFolder` | src/main/java/com/sparta/myselectshop/service/ProductService.java:104-126 | runs the four checks in the source's order; new tables and outcome are those of AddFolderStep on the old tables; the invariant is kept |

## Left out

- Error messages: the localized texts from `MessageSource` and the default locale are not modelled; only the error kind is.
- Paging and sorting: the listings return the view of every matching product by id. The order by `sortBy`, the slice for the requested page, the total-count metadata, `PageRequest.of`'s own rejection of a negative page or a size below one, and `Sort.by`'s `IllegalArgumentException` for an empty `sortBy` belong to the framework and are not modelled.
- Transactions, read-only transactions and lazy loading are framework behaviour and are not modelled. The duplicate check in `addFolder` is a read followed by a write and is not safe under concurrent calls; the model is sequential.
- `Product.java` is not part of this model. The field choices in `NewProduct`, `Product.Update` and `Product.UpdateByItem` are assumptions: the target price starts at 0, the value of an unassigned Java `int`; `update` sets the target price; `updateByItemDto` sets title, link, image and listed price. The service's contracts are stated in terms of these functions, and the only facts about them the invariant relies on are that they keep the id and the owner; the field values asserted in `Scenarios` hold only under these assumptions.
- Product ids: the store hands out ids from a counter that starts at 1; the database's id generation and the 64-bit width of `Long` ids are not modelled. Null ids are not modelled.
- Folders are created elsewhere; the service is constructed over existing folders and never adds any.
- The repository interfaces are modelled only as the lookups `FindAll`, `FindAllByUser` and `FindAllByUserAndFolderId`; `findAllByUserAndNameIn` and `findALlByUser` are not used by the service and are not modelled.
- The folder listing is a join; with duplicate rows it could list a product more than once. The model returns a set of matches, and the invariant rules out duplicate rows anyway.
- The second copy of the repositories and the folder view under the other package are not modelled twice; the folder view is `ResponseDto.FolderView`.
