/** The errors the container and its decorators throw, with the exact text of each message. */
module Errors {

  datatype DiError =
    | InvalidProvider                          // register: not one of the four provider shapes
    | RegistrationCycle(chain: string)         // register: a chain of token redirects closes a loop
    | Unregistered(name: string)               // resolve: a normal token without a binding
    | Unrecognized(name: string)               // resolve: a value that is no service identifier
    | NullishIdentifier(isNull: bool)          // resolve(undefined | null): printing its name fails
    | Circular(chain: string, name: string)    // resolve: identifier already in progress on the chain
    | NonInjectable(className: string)         // resolve: class with required constructor parameters
    | NotConstructor                           // `new serviceIdentifier()` on an arrow function
    | UnknownProvider                          // resolveProvider: none of the four shapes
    | ClassCalledWithoutNew(name: string)      // a forward reference that is a class, called as a thunk
    | NotAFunction                             // a forward reference that is no function at all
    | InvalidForwardRef                        // lazy(f) with f not a function
    | KindNotSupported(kind: string)           // @inject on something other than a field or accessor
    | NoServiceIdentifier                      // @inject(undefined)
    | InvalidServiceIdentifier                 // @inject(x) with x no service identifier
    | StaticField                              // @inject on a static field
    | OnlyClass                                // @injectable / @singleton on something other than a class

  /**
   * The message the error carries. For the TypeErrors the JavaScript engine raises itself the text
   * is the one V8 gives, which names the expression at fault (`new serviceIdentifier()` in
   * `resolveConstructor`, `this.forwardRef()` in the lazy handle).
   */
  function Message(e: DiError): string
  {
    match e
    case InvalidProvider => "This provider is not an valid provider."
    case RegistrationCycle(chain) => "Token registration cycle detected! " + chain
    case Unregistered(name) => "Attempted to resolve unregistered dependency token: \"" + name + "\""
    case Unrecognized(name) => "unrecognized service identifier " + name
    case NullishIdentifier(isNull) =>
      "Cannot read properties of " + (if isNull then "null" else "undefined") + " (reading 'toString')"
    case Circular(chain, name) => "Discovery of circular dependencies: " + chain + " -> " + name
    case NonInjectable(className) =>
      "This class `" + className + "` cannot be instantiated because it has the necessary construction parameters."
    case NotConstructor => "serviceIdentifier is not a constructor"
    case UnknownProvider => "unknown provider"
    case ClassCalledWithoutNew(name) => "Class constructor " + name + " cannot be invoked without 'new'"
    case NotAFunction => "this.forwardRef is not a function"
    case InvalidForwardRef => "Need a callback method that returns the constructor."
    case KindNotSupported(kind) => "This decorator kind '" + kind + "' is not supported."
    case NoServiceIdentifier =>
      "No 'serviceIdentifier' parameter was received. Could mean a circular dependency problem. Try using `lazy` function."
    case InvalidServiceIdentifier => "This 'serviceIdentifier' is not an valid 'ServiceIdentifier'."
    case StaticField => "Injecting dependencies into static fields is not supported."
    case OnlyClass => "This decorator can only be applied to class decorations."
  }
}
