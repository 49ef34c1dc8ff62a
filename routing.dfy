/**
 * The client's routing table (`Xminds::Client::ENDPOINT_METHODS`) and the
 * operations it exposes, each landing on the request builder of its group.
 */
module Routing {

  import opened Wrappers
  import opened JsonValues
  import opened Requests
  import Auth = AuthenticationEndpoints
  import Db = DatabaseEndpoints
  import Users = UsersEndpoints
  import Items = ItemsEndpoints
  import Ratings = RatingsEndpoints
  import Interactions = InteractionsEndpoints
  import Recs = RecommendationEndpoints
  import Tasks = BackgroundTasksEndpoints

  /** The eight endpoint groups, one lazily built object each. */
  datatype Family =
    | Authentication
    | Database
    | UsersDataAndProperties
    | ItemsDataAndProperties
    | UserRatings
    | UserInteractions
    | Recommendation
    | BackgroundTasks

  /** A call of one of the authentication group's methods. */
  datatype AuthenticationOperation =
    | ListAllAccounts
    | CreateIndividualAccount(email: Json, password: Json, role: Json, firstName: Json, lastName: Json)
    | DeleteIndividualAccount(email: Json)
    | CreateServiceAccount(serviceName: Json, password: Json, role: Json)
    | DeleteServiceAccount(serviceName: Json)
    | LoginAsIndividual(email: Json, password: Json, databaseId: Json, frontendUserId: Json, frontendSessionId: Json)
    | LoginAsService(serviceName: Json, password: Json, databaseId: Json, frontendUserId: Json, frontendSessionId: Json)
    | LoginAsRoot(email: Json, password: Json)
    | RenewLoginWithRefreshToken(refreshToken: Json)
    | ResendEmailVerificationCode(email: Json)
    | VerifyEmail(email: Json, code: Json)
    | DeleteCurrentAccount

  /** A call of one of the database group's methods. */
  datatype DatabaseOperation =
    | CreateDatabase(databaseName: Json, description: Json, itemIdType: Json, userIdType: Json)
    | ListAllDatabases(page: Json, amount: Json)
    | CurrentDatabase
    | DeleteCurrentDatabase
    | CurrentDatabaseStatus

  /** A call of one of the users data and properties group's methods. */
  datatype UsersOperation =
    | ListAllUserProperties
    | CreateUserProperty(propertyName: Json, valueType: Json, repeated: Json)
    | GetUserProperty(name: string)
    | DeleteUserProperty(name: string)
    | GetUser(userId: string)
    | CreateOrUpdateUser(userId: string, user: Json)
    | PartialUpdateUser(userId: string, user: Json, createIfMissing: Json)
    | CreateOrUpdateUserBulk(users: Json)
    | PartialUpdateUserBulk(users: Json, createIfMissing: Json)
    | ListAllUsers(amount: Json, cursor: Json)
    | ListAllUsersById(userIds: Json)

  /** A call of one of the items data and properties group's methods. */
  datatype ItemsOperation =
    | ListAllItemProperties
    | CreateItemProperty(propertyName: Json, valueType: Json, repeated: Json)
    | GetItemProperty(name: string)
    | DeleteItemProperty(name: string)
    | GetItem(itemId: string)
    | CreateOrUpdateItem(itemId: string, item: Json)
    | PartialUpdateItem(itemId: string, item: Json, createIfMissing: Json)
    | CreateOrUpdateItemBulk(items: Json)
    | PartialUpdateItemBulk(items: Json, createIfMissing: Json)
    | ListAllItems(amount: Json, cursor: Json)
    | ListAllItemsById(itemIds: Json)

  /** A call of one of the user ratings group's methods. */
  datatype RatingsOperation =
    | CreateOrUpdateRating(userId: string, itemId: string, rating: Json, timestamp: Json)
    | DeleteRating(userId: string, itemId: string)
    | ListAllRatingsForUser(userId: string, page: Json, amount: Json)
    | CreateOrUpdateRatingsForUserBulk(userId: string, ratings: Json)
    | DeleteAllRatingsForUser(userId: string)
    | CreateOrUpdateRatingsBulk(ratings: Json)
    | ListAllRatings(amount: Json, cursor: Json)

  /** A call of one of the user interactions group's methods. */
  datatype InteractionsOperation =
    | CreateUserInteraction(userId: string, itemId: string, interactionType: Json, timestamp: Json)
    | CreateUserInteractionsBulk(interactions: Json)

  /** A call of one of the recommendation group's methods. */
  datatype RecommendationOperation =
    | ListSimilarItemRecommendations(itemId: string, amount: Json, cursor: Json, filters: Json)
    | ListSessionBasedItemRecommendations(amount: Json, cursor: Json, filters: Json, ratings: Json, userProperties: Json, excludeRatedItems: Json)
    | ListProfileBasedItemRecommendations(userId: string, amount: Json, cursor: Json, filters: Json, excludeRatedItems: Json)

  /** A call of one of the background tasks group's methods. */
  datatype BackgroundTasksOperation =
    | TriggerBackgroundTask(taskName: string)
    | ListRecentBackgroundTasks(taskName: string)

  /** One call of a public client method with its arguments (unset optional ones carry their defaults), by group. */
  datatype Op =
    | AuthenticationOp(auth: AuthenticationOperation)
    | DatabaseOp(database: DatabaseOperation)
    | UsersOp(users: UsersOperation)
    | ItemsOp(items: ItemsOperation)
    | RatingsOp(ratings: RatingsOperation)
    | InteractionsOp(interactions: InteractionsOperation)
    | RecommendationOp(recommendation: RecommendationOperation)
    | BackgroundTasksOp(tasks: BackgroundTasksOperation)

  /** The Ruby symbols naming the client's public methods. */
  datatype Symbol =
    | list_all_accounts
    | create_individual_account
    | delete_individual_account
    | create_service_account
    | delete_service_account
    | login_as_individual
    | login_as_service
    | login_as_root
    | renew_login_with_refresh_token
    | resend_email_verification_code
    | verify_email
    | delete_current_account
    | create_database
    | list_all_databases
    | current_database
    | delete_current_database
    | current_database_status
    | list_all_user_properties
    | create_user_property
    | get_user_property
    | delete_user_property
    | get_user
    | create_or_update_user
    | partial_update_user
    | create_or_update_user_bulk
    | partial_update_user_bulk
    | list_all_users
    | list_all_users_by_id
    | list_all_item_properties
    | create_item_property
    | get_item_property
    | delete_item_property
    | get_item
    | create_or_update_item
    | partial_update_item
    | create_or_update_item_bulk
    | partial_update_item_bulk
    | list_all_items
    | list_all_items_by_id
    | create_or_update_rating
    | delete_rating
    | list_all_ratings_for_user
    | create_or_update_ratings_for_user_bulk
    | delete_all_ratings_for_user
    | create_or_update_ratings_bulk
    | list_all_ratings
    | create_user_interaction
    | create_user_interactions_bulk
    | list_similar_item_recommendations
    | list_session_based_item_recommendations
    | list_profile_based_item_recommendations
    | trigger_background_task
    | list_recent_background_tasks

  // `ENDPOINT_METHODS`: the names of the client methods each group serves, in order.

  const AuthenticationMethods: set<Symbol> := {
    list_all_accounts, create_individual_account, delete_individual_account, create_service_account,
    delete_service_account, login_as_individual, login_as_service, login_as_root,
    renew_login_with_refresh_token, resend_email_verification_code, verify_email, delete_current_account}
  const DatabaseMethods: set<Symbol> := {
    create_database, list_all_databases, current_database, delete_current_database, current_database_status}
  const UsersMethods: set<Symbol> := {
    list_all_user_properties, create_user_property, get_user_property, delete_user_property, get_user,
    create_or_update_user, partial_update_user, create_or_update_user_bulk, partial_update_user_bulk,
    list_all_users, list_all_users_by_id}
  const ItemsMethods: set<Symbol> := {
    list_all_item_properties, create_item_property, get_item_property, delete_item_property, get_item,
    create_or_update_item, partial_update_item, create_or_update_item_bulk, partial_update_item_bulk,
    list_all_items, list_all_items_by_id}
  const RatingsMethods: set<Symbol> := {
    create_or_update_rating, delete_rating, list_all_ratings_for_user, create_or_update_ratings_for_user_bulk,
    delete_all_ratings_for_user, create_or_update_ratings_bulk, list_all_ratings}
  const InteractionsMethods: set<Symbol> := {create_user_interaction, create_user_interactions_bulk}
  const RecommendationMethods: set<Symbol> := {
    list_similar_item_recommendations, list_session_based_item_recommendations,
    list_profile_based_item_recommendations}
  const BackgroundTasksMethods: set<Symbol> := {trigger_background_task, list_recent_background_tasks}

  /** The table's entry for a group. */
  function MethodsOf(f: Family): set<Symbol> {
    match f
    case Authentication => AuthenticationMethods
    case Database => DatabaseMethods
    case UsersDataAndProperties => UsersMethods
    case ItemsDataAndProperties => ItemsMethods
    case UserRatings => RatingsMethods
    case UserInteractions => InteractionsMethods
    case Recommendation => RecommendationMethods
    case BackgroundTasks => BackgroundTasksMethods
  }

  /**
   * The group the generated method `name` sends to. The methods are defined
   * in table order, so a name listed under two groups would be served by the
   * later one: the search runs from the end of the table.
   */
  function Route(name: Symbol): (r: Option<Family>)
    ensures r.Some? ==> name in MethodsOf(r.value)
    ensures r.None? ==> forall f :: name !in MethodsOf(f)
  {
    if name in BackgroundTasksMethods then Some(BackgroundTasks)
    else if name in RecommendationMethods then Some(Recommendation)
    else if name in InteractionsMethods then Some(UserInteractions)
    else if name in RatingsMethods then Some(UserRatings)
    else if name in ItemsMethods then Some(ItemsDataAndProperties)
    else if name in UsersMethods then Some(UsersDataAndProperties)
    else if name in DatabaseMethods then Some(Database)
    else if name in AuthenticationMethods then Some(Authentication)
    else None
  }

  /** The Ruby name of the client method an operation calls. */
  function NameOf(op: Op): Symbol {
    match op
    case AuthenticationOp(o) => AuthenticationName(o)
    case DatabaseOp(o) => DatabaseName(o)
    case UsersOp(o) => UsersName(o)
    case ItemsOp(o) => ItemsName(o)
    case RatingsOp(o) => RatingsName(o)
    case InteractionsOp(o) => InteractionsName(o)
    case RecommendationOp(o) => RecommendationName(o)
    case BackgroundTasksOp(o) => BackgroundTasksName(o)
  }

  /** The Ruby name of the authentication method called. */
  function AuthenticationName(op: AuthenticationOperation): (r: Symbol)
    ensures r in AuthenticationMethods
  {
    match op
    case ListAllAccounts => list_all_accounts
    case CreateIndividualAccount(_, _, _, _, _) => create_individual_account
    case DeleteIndividualAccount(_) => delete_individual_account
    case CreateServiceAccount(_, _, _) => create_service_account
    case DeleteServiceAccount(_) => delete_service_account
    case LoginAsIndividual(_, _, _, _, _) => login_as_individual
    case LoginAsService(_, _, _, _, _) => login_as_service
    case LoginAsRoot(_, _) => login_as_root
    case RenewLoginWithRefreshToken(_) => renew_login_with_refresh_token
    case ResendEmailVerificationCode(_) => resend_email_verification_code
    case VerifyEmail(_, _) => verify_email
    case DeleteCurrentAccount => delete_current_account
  }

  /** The Ruby name of the database method called. */
  function DatabaseName(op: DatabaseOperation): (r: Symbol)
    ensures r in DatabaseMethods
  {
    match op
    case CreateDatabase(_, _, _, _) => create_database
    case ListAllDatabases(_, _) => list_all_databases
    case CurrentDatabase => current_database
    case DeleteCurrentDatabase => delete_current_database
    case CurrentDatabaseStatus => current_database_status
  }

  /** The Ruby name of the users data and properties method called. */
  function UsersName(op: UsersOperation): (r: Symbol)
    ensures r in UsersMethods
  {
    match op
    case ListAllUserProperties => list_all_user_properties
    case CreateUserProperty(_, _, _) => create_user_property
    case GetUserProperty(_) => get_user_property
    case DeleteUserProperty(_) => delete_user_property
    case GetUser(_) => get_user
    case CreateOrUpdateUser(_, _) => create_or_update_user
    case PartialUpdateUser(_, _, _) => partial_update_user
    case CreateOrUpdateUserBulk(_) => create_or_update_user_bulk
    case PartialUpdateUserBulk(_, _) => partial_update_user_bulk
    case ListAllUsers(_, _) => list_all_users
    case ListAllUsersById(_) => list_all_users_by_id
  }

  /** The Ruby name of the items data and properties method called. */
  function ItemsName(op: ItemsOperation): (r: Symbol)
    ensures r in ItemsMethods
  {
    match op
    case ListAllItemProperties => list_all_item_properties
    case CreateItemProperty(_, _, _) => create_item_property
    case GetItemProperty(_) => get_item_property
    case DeleteItemProperty(_) => delete_item_property
    case GetItem(_) => get_item
    case CreateOrUpdateItem(_, _) => create_or_update_item
    case PartialUpdateItem(_, _, _) => partial_update_item
    case CreateOrUpdateItemBulk(_) => create_or_update_item_bulk
    case PartialUpdateItemBulk(_, _) => partial_update_item_bulk
    case ListAllItems(_, _) => list_all_items
    case ListAllItemsById(_) => list_all_items_by_id
  }

  /** The Ruby name of the user ratings method called. */
  function RatingsName(op: RatingsOperation): (r: Symbol)
    ensures r in RatingsMethods
  {
    match op
    case CreateOrUpdateRating(_, _, _, _) => create_or_update_rating
    case DeleteRating(_, _) => delete_rating
    case ListAllRatingsForUser(_, _, _) => list_all_ratings_for_user
    case CreateOrUpdateRatingsForUserBulk(_, _) => create_or_update_ratings_for_user_bulk
    case DeleteAllRatingsForUser(_) => delete_all_ratings_for_user
    case CreateOrUpdateRatingsBulk(_) => create_or_update_ratings_bulk
    case ListAllRatings(_, _) => list_all_ratings
  }

  /** The Ruby name of the user interactions method called. */
  function InteractionsName(op: InteractionsOperation): (r: Symbol)
    ensures r in InteractionsMethods
  {
    match op
    case CreateUserInteraction(_, _, _, _) => create_user_interaction
    case CreateUserInteractionsBulk(_) => create_user_interactions_bulk
  }

  /** The Ruby name of the recommendation method called. */
  function RecommendationName(op: RecommendationOperation): (r: Symbol)
    ensures r in RecommendationMethods
  {
    match op
    case ListSimilarItemRecommendations(_, _, _, _) => list_similar_item_recommendations
    case ListSessionBasedItemRecommendations(_, _, _, _, _, _) => list_session_based_item_recommendations
    case ListProfileBasedItemRecommendations(_, _, _, _, _) => list_profile_based_item_recommendations
  }

  /** The Ruby name of the background tasks method called. */
  function BackgroundTasksName(op: BackgroundTasksOperation): (r: Symbol)
    ensures r in BackgroundTasksMethods
  {
    match op
    case TriggerBackgroundTask(_) => trigger_background_task
    case ListRecentBackgroundTasks(_) => list_recent_background_tasks
  }

  /** The group whose class defines the operation's method. */
  function FamilyOf(op: Op): Family {
    match op
    case AuthenticationOp(_) => Authentication
    case DatabaseOp(_) => Database
    case UsersOp(_) => UsersDataAndProperties
    case ItemsOp(_) => ItemsDataAndProperties
    case RatingsOp(_) => UserRatings
    case InteractionsOp(_) => UserInteractions
    case RecommendationOp(_) => Recommendation
    case BackgroundTasksOp(_) => BackgroundTasks
  }

  /** The login and token-refresh calls, the only ones sent without a bearer token. */
  predicate IsLogin(op: Op) {
    op.AuthenticationOp?
    && (op.auth.LoginAsIndividual? || op.auth.LoginAsService? || op.auth.LoginAsRoot?
        || op.auth.RenewLoginWithRefreshToken?)
  }

  /** The request the group's method builds for the operation, its arguments forwarded unchanged. */
  function CallOf(op: Op): (r: Call)
    ensures !r.authRequired <==> IsLogin(op)
    ensures r.headers == []
  {
    match op
    case AuthenticationOp(o) => AuthenticationCall(o)
    case DatabaseOp(o) => DatabaseCall(o)
    case UsersOp(o) => UsersCall(o)
    case ItemsOp(o) => ItemsCall(o)
    case RatingsOp(o) => RatingsCall(o)
    case InteractionsOp(o) => InteractionsCall(o)
    case RecommendationOp(o) => RecommendationCall(o)
    case BackgroundTasksOp(o) => BackgroundTasksCall(o)
  }

  /** The request the authentication group builds for the call. */
  function AuthenticationCall(op: AuthenticationOperation): (r: Call)
    ensures !r.authRequired <==> op.LoginAsIndividual? || op.LoginAsService? || op.LoginAsRoot? || op.RenewLoginWithRefreshToken?
    ensures r.headers == []
  {
    match op
    case ListAllAccounts => Auth.ListAllAccounts()
    case CreateIndividualAccount(email, password, role, firstName, lastName) =>
      Auth.CreateIndividualAccount(email, password, role, firstName, lastName)
    case DeleteIndividualAccount(email) => Auth.DeleteIndividualAccount(email)
    case CreateServiceAccount(serviceName, password, role) => Auth.CreateServiceAccount(serviceName, password, role)
    case DeleteServiceAccount(serviceName) => Auth.DeleteServiceAccount(serviceName)
    case LoginAsIndividual(email, password, databaseId, frontendUserId, frontendSessionId) =>
      Auth.LoginAsIndividual(email, password, databaseId, frontendUserId, frontendSessionId)
    case LoginAsService(serviceName, password, databaseId, frontendUserId, frontendSessionId) =>
      Auth.LoginAsService(serviceName, password, databaseId, frontendUserId, frontendSessionId)
    case LoginAsRoot(email, password) => Auth.LoginAsRoot(email, password)
    case RenewLoginWithRefreshToken(refreshToken) => Auth.RenewLoginWithRefreshToken(refreshToken)
    case ResendEmailVerificationCode(email) => Auth.ResendEmailVerificationCode(email)
    case VerifyEmail(email, code) => Auth.VerifyEmail(email, code)
    case DeleteCurrentAccount => Auth.DeleteCurrentAccount()
  }

  /** The request the database group builds for the call. */
  function DatabaseCall(op: DatabaseOperation): (r: Call)
    ensures r.authRequired && r.headers == []
  {
    match op
    case CreateDatabase(databaseName, description, itemIdType, userIdType) =>
      Db.CreateDatabase(databaseName, description, itemIdType, userIdType)
    case ListAllDatabases(page, amount) => Db.ListAllDatabases(page, amount)
    case CurrentDatabase => Db.CurrentDatabase()
    case DeleteCurrentDatabase => Db.DeleteCurrentDatabase()
    case CurrentDatabaseStatus => Db.CurrentDatabaseStatus()
  }

  /** The request the users data and properties group builds for the call. */
  function UsersCall(op: UsersOperation): (r: Call)
    ensures r.authRequired && r.headers == []
  {
    match op
    case ListAllUserProperties => Users.ListAllUserProperties()
    case CreateUserProperty(propertyName, valueType, repeated) => Users.CreateUserProperty(propertyName, valueType, repeated)
    case GetUserProperty(name) => Users.GetUserProperty(name)
    case DeleteUserProperty(name) => Users.DeleteUserProperty(name)
    case GetUser(userId) => Users.GetUser(userId)
    case CreateOrUpdateUser(userId, user) => Users.CreateOrUpdateUser(userId, user)
    case PartialUpdateUser(userId, user, createIfMissing) => Users.PartialUpdateUser(userId, user, createIfMissing)
    case CreateOrUpdateUserBulk(users) => Users.CreateOrUpdateUserBulk(users)
    case PartialUpdateUserBulk(users, createIfMissing) => Users.PartialUpdateUserBulk(users, createIfMissing)
    case ListAllUsers(amount, cursor) => Users.ListAllUsers(amount, cursor)
    case ListAllUsersById(userIds) => Users.ListAllUsersById(userIds)
  }

  /** The request the items data and properties group builds for the call. */
  function ItemsCall(op: ItemsOperation): (r: Call)
    ensures r.authRequired && r.headers == []
  {
    match op
    case ListAllItemProperties => Items.ListAllItemProperties()
    case CreateItemProperty(propertyName, valueType, repeated) => Items.CreateItemProperty(propertyName, valueType, repeated)
    case GetItemProperty(name) => Items.GetItemProperty(name)
    case DeleteItemProperty(name) => Items.DeleteItemProperty(name)
    case GetItem(itemId) => Items.GetItem(itemId)
    case CreateOrUpdateItem(itemId, item) => Items.CreateOrUpdateItem(itemId, item)
    case PartialUpdateItem(itemId, item, createIfMissing) => Items.PartialUpdateItem(itemId, item, createIfMissing)
    case CreateOrUpdateItemBulk(items) => Items.CreateOrUpdateItemBulk(items)
    case PartialUpdateItemBulk(items, createIfMissing) => Items.PartialUpdateItemBulk(items, createIfMissing)
    case ListAllItems(amount, cursor) => Items.ListAllItems(amount, cursor)
    case ListAllItemsById(itemIds) => Items.ListAllItemsById(itemIds)
  }

  /** The request the user ratings group builds for the call. */
  function RatingsCall(op: RatingsOperation): (r: Call)
    ensures r.authRequired && r.headers == []
  {
    match op
    case CreateOrUpdateRating(userId, itemId, rating, timestamp) => Ratings.CreateOrUpdateRating(userId, itemId, rating, timestamp)
    case DeleteRating(userId, itemId) => Ratings.DeleteRating(userId, itemId)
    case ListAllRatingsForUser(userId, page, amount) => Ratings.ListAllRatingsForUser(userId, page, amount)
    case CreateOrUpdateRatingsForUserBulk(userId, ratings) => Ratings.CreateOrUpdateRatingsForUserBulk(userId, ratings)
    case DeleteAllRatingsForUser(userId) => Ratings.DeleteAllRatingsForUser(userId)
    case CreateOrUpdateRatingsBulk(ratings) => Ratings.CreateOrUpdateRatingsBulk(ratings)
    case ListAllRatings(amount, cursor) => Ratings.ListAllRatings(amount, cursor)
  }

  /** The request the user interactions group builds for the call. */
  function InteractionsCall(op: InteractionsOperation): (r: Call)
    ensures r.authRequired && r.headers == []
  {
    match op
    case CreateUserInteraction(userId, itemId, interactionType, timestamp) =>
      Interactions.CreateUserInteraction(userId, itemId, interactionType, timestamp)
    case CreateUserInteractionsBulk(interactions) => Interactions.CreateUserInteractionsBulk(interactions)
  }

  /** The request the recommendation group builds for the call. */
  function RecommendationCall(op: RecommendationOperation): (r: Call)
    ensures r.authRequired && r.headers == []
  {
    match op
    case ListSimilarItemRecommendations(itemId, amount, cursor, filters) =>
      Recs.ListSimilarItemRecommendations(itemId, amount, cursor, filters)
    case ListSessionBasedItemRecommendations(amount, cursor, filters, ratings, userProperties, excludeRatedItems) =>
      Recs.ListSessionBasedItemRecommendations(amount, cursor, filters, ratings, userProperties, excludeRatedItems)
    case ListProfileBasedItemRecommendations(userId, amount, cursor, filters, excludeRatedItems) =>
      Recs.ListProfileBasedItemRecommendations(userId, amount, cursor, filters, excludeRatedItems)
  }

  /** The request the background tasks group builds for the call. */
  function BackgroundTasksCall(op: BackgroundTasksOperation): (r: Call)
    ensures r.authRequired && r.headers == []
  {
    match op
    case TriggerBackgroundTask(taskName) => Tasks.TriggerBackgroundTask(taskName)
    case ListRecentBackgroundTasks(taskName) => Tasks.ListRecentBackgroundTasks(taskName)
  }

  /** A name the Authentication group lists is listed under no later group. */
  lemma AuthenticationNamesNotRelisted(name: Symbol)
    requires name in AuthenticationMethods
    ensures name !in DatabaseMethods
      && name !in UsersMethods
      && name !in ItemsMethods
      && name !in RatingsMethods
      && name !in InteractionsMethods
      && name !in RecommendationMethods
      && name !in BackgroundTasksMethods
  {
  }

  /** A name the Database group lists is listed under no later group. */
  lemma DatabaseNamesNotRelisted(name: Symbol)
    requires name in DatabaseMethods
    ensures name !in UsersMethods
      && name !in ItemsMethods
      && name !in RatingsMethods
      && name !in InteractionsMethods
      && name !in RecommendationMethods
      && name !in BackgroundTasksMethods
  {
  }

  /** A name the UsersDataAndProperties group lists is listed under no later group. */
  lemma UsersNamesNotRelisted(name: Symbol)
    requires name in UsersMethods
    ensures name !in ItemsMethods
      && name !in RatingsMethods
      && name !in InteractionsMethods
      && name !in RecommendationMethods
      && name !in BackgroundTasksMethods
  {
  }

  /** A name the ItemsDataAndProperties group lists is listed under no later group. */
  lemma ItemsNamesNotRelisted(name: Symbol)
    requires name in ItemsMethods
    ensures name !in RatingsMethods
      && name !in InteractionsMethods
      && name !in RecommendationMethods
      && name !in BackgroundTasksMethods
  {
  }

  /** A name the UserRatings group lists is listed under no later group. */
  lemma RatingsNamesNotRelisted(name: Symbol)
    requires name in RatingsMethods
    ensures name !in InteractionsMethods
      && name !in RecommendationMethods
      && name !in BackgroundTasksMethods
  {
  }

  /** A name the UserInteractions group lists is listed under no later group. */
  lemma InteractionsNamesNotRelisted(name: Symbol)
    requires name in InteractionsMethods
    ensures name !in RecommendationMethods
      && name !in BackgroundTasksMethods
  {
  }

  /** A name the Recommendation group lists is listed under no later group. */
  lemma RecommendationNamesNotRelisted(name: Symbol)
    requires name in RecommendationMethods
    ensures name !in BackgroundTasksMethods
  {
  }

  /** No name is listed under two groups, so no generated method is overridden by a later group's. */
  lemma TableGroupsDisjoint(name: Symbol, f: Family, g: Family)
    requires name in MethodsOf(f) && name in MethodsOf(g)
    ensures f == g
  {
    if name in AuthenticationMethods { AuthenticationNamesNotRelisted(name); }
    if name in DatabaseMethods { DatabaseNamesNotRelisted(name); }
    if name in UsersMethods { UsersNamesNotRelisted(name); }
    if name in ItemsMethods { ItemsNamesNotRelisted(name); }
    if name in RatingsMethods { RatingsNamesNotRelisted(name); }
    if name in InteractionsMethods { InteractionsNamesNotRelisted(name); }
    if name in RecommendationMethods { RecommendationNamesNotRelisted(name); }
  }

  /** Every operation's name is routed to the group that defines it, and to no other group. */
  lemma RoutesToDefiningGroup(op: Op)
    ensures Route(NameOf(op)) == Some(FamilyOf(op))
  {
    var r := Route(NameOf(op));
    TableGroupsDisjoint(NameOf(op), r.value, FamilyOf(op));
  }

  /**
   * A call of the generated method `name`, its arguments nil or at their
   * defaults: every name in the table is a method some group defines.
   */
  function OperationNamed(name: Symbol): (op: Op)
    ensures NameOf(op) == name
  {
    match name
    case list_all_accounts => AuthenticationOp(ListAllAccounts)
    case create_individual_account => AuthenticationOp(CreateIndividualAccount(JNull, JNull, JNull, JNull, JNull))
    case delete_individual_account => AuthenticationOp(DeleteIndividualAccount(JNull))
    case create_service_account => AuthenticationOp(CreateServiceAccount(JNull, JNull, JNull))
    case delete_service_account => AuthenticationOp(DeleteServiceAccount(JNull))
    case login_as_individual => AuthenticationOp(LoginAsIndividual(JNull, JNull, JNull, JNull, JNull))
    case login_as_service => AuthenticationOp(LoginAsService(JNull, JNull, JNull, JNull, JNull))
    case login_as_root => AuthenticationOp(LoginAsRoot(JNull, JNull))
    case renew_login_with_refresh_token => AuthenticationOp(RenewLoginWithRefreshToken(JNull))
    case resend_email_verification_code => AuthenticationOp(ResendEmailVerificationCode(JNull))
    case verify_email => AuthenticationOp(VerifyEmail(JNull, JNull))
    case delete_current_account => AuthenticationOp(DeleteCurrentAccount)
    case create_database => DatabaseOp(CreateDatabase(JNull, JNull, JNull, JNull))
    case list_all_databases => DatabaseOp(ListAllDatabases(JNull, JNull))
    case current_database => DatabaseOp(CurrentDatabase)
    case delete_current_database => DatabaseOp(DeleteCurrentDatabase)
    case current_database_status => DatabaseOp(CurrentDatabaseStatus)
    case list_all_user_properties => UsersOp(ListAllUserProperties)
    case create_user_property => UsersOp(CreateUserProperty(JNull, JNull, JBool(false)))
    case get_user_property => UsersOp(GetUserProperty(""))
    case delete_user_property => UsersOp(DeleteUserProperty(""))
    case get_user => UsersOp(GetUser(""))
    case create_or_update_user => UsersOp(CreateOrUpdateUser("", JNull))
    case partial_update_user => UsersOp(PartialUpdateUser("", JNull, JBool(false)))
    case create_or_update_user_bulk => UsersOp(CreateOrUpdateUserBulk(JNull))
    case partial_update_user_bulk => UsersOp(PartialUpdateUserBulk(JNull, JBool(false)))
    case list_all_users => UsersOp(ListAllUsers(JNull, JNull))
    case list_all_users_by_id => UsersOp(ListAllUsersById(JNull))
    case list_all_item_properties => ItemsOp(ListAllItemProperties)
    case create_item_property => ItemsOp(CreateItemProperty(JNull, JNull, JBool(false)))
    case get_item_property => ItemsOp(GetItemProperty(""))
    case delete_item_property => ItemsOp(DeleteItemProperty(""))
    case get_item => ItemsOp(GetItem(""))
    case create_or_update_item => ItemsOp(CreateOrUpdateItem("", JNull))
    case partial_update_item => ItemsOp(PartialUpdateItem("", JNull, JBool(false)))
    case create_or_update_item_bulk => ItemsOp(CreateOrUpdateItemBulk(JNull))
    case partial_update_item_bulk => ItemsOp(PartialUpdateItemBulk(JNull, JBool(false)))
    case list_all_items => ItemsOp(ListAllItems(JNull, JNull))
    case list_all_items_by_id => ItemsOp(ListAllItemsById(JNull))
    case create_or_update_rating => RatingsOp(CreateOrUpdateRating("", "", JNull, JNull))
    case delete_rating => RatingsOp(DeleteRating("", ""))
    case list_all_ratings_for_user => RatingsOp(ListAllRatingsForUser("", JNull, JNull))
    case create_or_update_ratings_for_user_bulk => RatingsOp(CreateOrUpdateRatingsForUserBulk("", JNull))
    case delete_all_ratings_for_user => RatingsOp(DeleteAllRatingsForUser(""))
    case create_or_update_ratings_bulk => RatingsOp(CreateOrUpdateRatingsBulk(JNull))
    case list_all_ratings => RatingsOp(ListAllRatings(JNull, JNull))
    case create_user_interaction => InteractionsOp(CreateUserInteraction("", "", JNull, JNull))
    case create_user_interactions_bulk => InteractionsOp(CreateUserInteractionsBulk(JNull))
    case list_similar_item_recommendations => RecommendationOp(ListSimilarItemRecommendations("", JNull, JNull, JNull))
    case list_session_based_item_recommendations => RecommendationOp(ListSessionBasedItemRecommendations(JNull, JNull, JNull, JNull, JNull, JBool(false)))
    case list_profile_based_item_recommendations => RecommendationOp(ListProfileBasedItemRecommendations("", JNull, JNull, JNull, JBool(false)))
    case trigger_background_task => BackgroundTasksOp(TriggerBackgroundTask(""))
    case list_recent_background_tasks => BackgroundTasksOp(ListRecentBackgroundTasks(""))
  }

  /**
   * The converse of routing: every name the table lists under a group is the
   * name of an operation of that group.
   */
  lemma EveryListedNameIsAnOperation(name: Symbol, f: Family)
    requires name in MethodsOf(f)
    ensures FamilyOf(OperationNamed(name)) == f
    ensures exists op :: FamilyOf(op) == f && NameOf(op) == name
  {
    var op := OperationNamed(name);
    RoutesToDefiningGroup(op);
    TableGroupsDisjoint(name, f, FamilyOf(op));
  }

  /**
   * On the wire: no operation adds headers of its own, so a message carries
   * the bearer token exactly when it is not a login or refresh call, and
   * always declares a JSON content type.
   */
  lemma BearerExactlyOnAuthenticatedOps(endpoint: string, token: Option<string>, op: Op)
    ensures var h := MessageFor(endpoint, token, CallOf(op)).headers;
      && ContentTypeHeader in h && h[ContentTypeHeader] == JsonMediaType
      && (AuthorizationHeader in h <==>
            !IsLogin(op))
      && (AuthorizationHeader in h ==> h[AuthorizationHeader] == "Bearer " + token.GetOr(""))
  {
    MessageHeaders(endpoint, token, CallOf(op));
  }

  /** Whatever the operation and its arguments, the query string of its message never holds a nil entry. */
  lemma NoNullInAnyQuery(endpoint: string, token: Option<string>, op: Op)
    ensures var m := MessageFor(endpoint, token, CallOf(op));
      m.query.Some? ==> NullFree(m.query.value) && m.query.value != map[]
  {
  }
}
